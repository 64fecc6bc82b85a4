# Colony counter: the stage gallery

This project models the core of a small desktop program that counts objects
(bacterial colonies on a Petri dish) in a photograph. The user picks an image;
the program runs it through a fixed OpenCV pipeline and keeps every
intermediate image in a gallery. The six stages are: the original, grayscale,
Gaussian blur, inverse binary threshold, morphological opening and closing,
and the contours drawn on the original with the object count. The user steps
through the gallery one stage at a time with the "Avançar" button. After every
run the annotated last stage is written to `output_contours_YYYYMMDD_HHMMSS.jpg`.

The program keeps its state in module-level globals (`image_path`, `stages`,
`stage_names`, `current_stage`). Two button callbacks (`load_image` and
`next_stage`) and the two helpers they call (`process_image_stages` and
`display_current_stage`) change or read that state. The model turns the
globals into the fields of the class `Contador.Session` and these four
functions into its members:

- `Load` is `load_image`. It resets the gallery and rebuilds it.
- `ProcessStages` is `process_image_stages`. It appends the six stages and their names.
- `CurrentView` is the guard of `display_current_stage`.
- `NextStage` is `next_stage`.

`Session.Valid()` is the invariant every member keeps:

- the two lists have the same length;
- the cursor is on a stage, or is 0 when the gallery is empty.

Module layout:

- `Vision` models the images. Every OpenCV transform between `cv2.imread` and
  `cv2.imwrite` is a constructor of the datatype `Image`, applied with the
  constants the program hard-codes (5×5 blur with sigma 0, threshold
  150/255, 2×2 kernel, one iteration, green strokes of width 2, text at
  (10, 30)). Image equality in the model is equality of these call terms. `StageImages` and `StageLabels` give the six
  images and six names of one run.
- `Exporter` builds the export filename from a timestamp record and reads it back.
- `Numerals` renders numbers in decimal, both as Python's `str(n)` does and as
  a zero-padded `strftime` field, and reads them back.
- `Contador` holds the session class, the pure cursor step `Step` and its
  iteration `Browse`.

Everything the callbacks get from outside the program arrives in a `Host`
record:

- whether PIL can open the file for the preview;
- what `cv2.imread` decodes from the file (`Unreadable` stands for its `None`);
- the contours `cv2.findContours` returns;
- the wall-clock time of the export.

The file dialog's answer is an `Option<string>`. A path counts as chosen only
when it is present and non-empty, as Python's `if file_path:` decides.

The model keeps three behaviours of the code:

- The stage names are fixed Portuguese captions (contador.py:49-86).
- When `cv2.imread` cannot decode the chosen file, `process_image_stages` has
  already appended the `None` image and the name "Imagem Original"
  (contador.py:45-49). Then the grayscale conversion raises (contador.py:52).
  The gallery is left with that one entry, and nothing is exported.
- Every run writes the annotated last stage to disk (contador.py:89-91).

## Model

| member | source | states |
|---|---|---|
| `Contador.Session.constructor` | contador.py:13-16 | At program start there is no chosen path, both lists are empty, the cursor is 0, and the invariant holds. |
| `Contador.Session.Load` | contador.py:19-38 | An empty or absent dialog answer changes nothing and reports `Cancelled`. A chosen path is always stored. If PIL cannot open the file, the gallery and cursor are unchanged (`PreviewFailed`). Otherwise the gallery is reset, the cursor is 0 and the gallery is rebuilt from scratch. On a decodable file that gives exactly the six stage images and six names of one run, with the original on screen. On an undecodable file it gives the single entry (`None`, "Imagem Original"). |
| `Contador.Session.ProcessStages` | contador.py:41-91 | Appends to both lists, so the invariant is kept, and leaves the path and cursor alone. On an unreadable file it appends only the original entry and fails. Otherwise it appends exactly the six images of `StageImages` and the six names of `StageLabels`, in order. It reports the export filename built from the clock, the annotated image and the count, which is the number of contours found in the cleaned image. |
| `Contador.Session.CurrentView` | contador.py:98-106 | Something is shown exactly when the gallery is non-empty. What is shown is the image and the name at the cursor. |
| `Contador.Session.NextStage` | contador.py:109-115 | Below the last stage, the cursor moves up by one and the new stage is shown. At the last stage, or on an empty gallery, the cursor stays and the end is announced. The lists never change, and the invariant is kept. |
| `Contador.Step` | contador.py:111-112 | One press moves the cursor by at most one. It moves exactly when the cursor is below the last index. A cursor inside the gallery stays inside it. |
| `Contador.BrowseStopsAtLast` | contador.py:109-115 | On a gallery of n ≥ 1 stages, k presses from stage 0 reach stage min(k, n - 1). |
| `Contador.BrowseOnEmpty` | contador.py:111 | On an empty gallery the cursor never leaves 0. |
| `Contador.BrowseFreshGallery` | contador.py:109-115 | A user loads a decodable picture and presses "Avançar" six times. The cursor passes through 1, 2, 3, 4, 5 and stays at 5, and the sixth press announces the end. Without a decodable picture every press stays at 0 and announces the end. |
| `Contador.PressSixTimes` | contador.py:109-115 | Six presses on a gallery whose cursor is on the first stage change only the cursor: the path and both lists stay, and the invariant is kept. The cursor after press k is `Browse(k, n)`, and it ends at `Browse(6, n)`. The sixth press announces the end exactly when the fifth left the cursor on the last stage or the gallery is empty. |
| `Vision.StageImages` | contador.py:47-85 | One run produces exactly six stage images, and the first is the loaded image itself, unmodified. |
| `Vision.StageLabels` | contador.py:49-86 | One run produces exactly six names. The first five are, in order, "Imagem Original", "Escala de Cinza", "Imagem Suavizada (Filtro Gaussiano)", "Limiarização (Thresholding)" and "Operações Morfológicas". The sixth announces exactly the run's object count. None of the first five announces a count. |
| `Numerals.Decimal` | contador.py:86 | The decimal rendering of a count is non-empty, made of digits, and has no leading zero. |
| `Numerals.DecimalRoundTrip` | contador.py:78-86 | Reading back the rendered count gives the count. |
| `Numerals.DecimalInjective` | contador.py:86 | Two counts have the same rendering exactly when they are equal. |
| `Numerals.Padded` | contador.py:89 | A `strftime` field has exactly the requested width and is all digits. |
| `Numerals.PaddedRoundTrip` | contador.py:89 | Reading back a zero-padded field gives the number. |
| `Exporter.DatePart` | contador.py:89 | `%Y%m%d` is eight digits. |
| `Exporter.TimePart` | contador.py:89 | `%H%M%S` is six digits. |
| `Exporter.Stamp` | contador.py:89 | The timestamp is 15 characters: eight digits, an underscore, six digits. |
| `Exporter.OutputPath` | contador.py:90 | The filename is "output_contours_", then the 15-character timestamp, then ".jpg". |
| `Exporter.StampRoundTrip` | contador.py:89 | Every field of the timestamp can be read back from its fixed position in the stamp. |
| `Exporter.OutputPathRoundTrip` | contador.py:89-90 | The timestamp can be recovered from the filename. |
| `Exporter.OutputPathInjective` | contador.py:89-90 | Two runs get the same filename exactly when their timestamps agree to the second. |

## Left out

- The window, the buttons, the labels, the message boxes and the file dialog
  (contador.py:1-3, 8-10, 117-143) are presentation. The dialog's answer is an
  input, and the "Fim" message box is the `AtEnd` result of `NextStage`.
- The PIL preview at load time (thumbnail, `PhotoImage`) is not modelled. Only
  whether PIL raises is kept, because that decides whether the gallery is reset.
- The resizing and conversion in `display_current_stage` (contador.py:102-106)
  is not modelled. `CurrentView` returns the image and caption at the cursor
  when the guard at contador.py:100 lets them through. After a load whose file
  `cv2.imread` cannot decode, `CurrentView` gives the `None` image, on which
  `cv2.resize` (contador.py:102) would raise. The program never displays that
  state: contador.py:95 is not reached, and contador.py:113 needs a second
  stage. So no behaviour differs. The display call at the end of
  `process_image_stages` (contador.py:95) changes no state. `Load` states what
  it shows.
- What OpenCV does to pixels is not modelled: colour conversion, blurring,
  thresholding, morphology, contour tracing, drawing and text. Each transform
  is a constructor of `Image`, and the contours come from the host. So the
  inverse-binary pixel rule (a value above 150 becomes 0, otherwise 255) is
  OpenCV's and is not stated here.
- Image equality in the model is equality of call terms. Different calls give
  different images, which OpenCV does not guarantee: an opening and closing
  that remove nothing leave the pixels of the thresholded image unchanged. No
  contract depends on this.
- The JPEG write of `cv2.imwrite` (contador.py:91) is not modelled. Its
  filename and image are returned in the `Exported` outcome. A failed write is
  ignored by the code and not modelled.
- The clock `datetime.now()` (contador.py:89) is the `now` field of the host.
- Exceptions other than the two the model follows are not modelled: PIL
  failing to open the file, and `cv2.cvtColor` failing on `None`. For example,
  an exception thrown by OpenCV on an image that does decode is not modelled.
- Exporter.Stamp: `%Y` is modelled as four zero-padded digits for every year
  from 1 to 9999. Some C libraries print years below 1000 without padding.
  Current dates are not affected.
- There is no adjustable parameter set, no "go back" and no batch processing
  in this program, so none is modelled.
