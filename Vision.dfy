/**
 * The six-stage image pipeline of the colony counter. Every OpenCV transform
 * between `cv2.imread` and `cv2.imwrite` is a constructor of `Image` (reading
 * and contour finding are inputs of the session): the model does not say what a blur or a threshold
 * does to pixels, only which call, on which input, with which constants,
 * produced each stage. Image equality is therefore equality of call terms,
 * which says more than OpenCV does (two different calls may yield the same
 * pixels); no contract of the model depends on that difference.
 */
module Vision {
  import opened Wrappers
  import opened Numerals

  datatype Point = Point(x: int, y: int)
  datatype Color = Bgr(b: nat, g: nat, r: nat)

  /** One boundary returned by `cv2.findContours`; only how many there are matters to the count. */
  datatype Contour = Contour(points: seq<Point>)

  datatype Image =
    | Unreadable                      // the `None` that cv2.imread returns for a file it cannot decode
    | Picture(id: nat)                // a colour image as cv2.imread decoded it
    | BgrToGray(src: Image)           // cv2.cvtColor(src, COLOR_BGR2GRAY)
    | GrayToBgr(src: Image)           // cv2.cvtColor(src, COLOR_GRAY2BGR), for display only
    | GaussianBlur(src: Image, kernelWidth: nat, kernelHeight: nat, sigma: nat)
    | ThresholdBinaryInv(src: Image, thresh: nat, maxValue: nat)
    | MorphOpen(src: Image, kernelWidth: nat, kernelHeight: nat, iterations: nat)
    | MorphClose(src: Image, kernelWidth: nat, kernelHeight: nat, iterations: nat)
    | DrawContours(src: Image, contours: seq<Contour>, color: Color, thickness: nat)
    | PutText(src: Image, text: string, origin: Point, scale: nat, color: Color, thickness: nat)

  // The fixed parameters of the pipeline; none of them can be changed at run time.
  const BlurSize: nat := 5
  const BlurSigma: nat := 0           // 0 lets OpenCV derive the deviation from the kernel size
  const Threshold: nat := 150
  const MaxValue: nat := 255
  const KernelSize: nat := 2          // np.ones((2, 2))
  const Iterations: nat := 1
  const Green: Color := Bgr(0, 255, 0)
  const Thickness: nat := 2
  const TextOrigin: Point := Point(10, 30)
  const FontScale: nat := 1

  const OriginalLabel: string := "Imagem Original"
  const GrayLabel: string := "Escala de Cinza"
  const BlurLabel: string := "Imagem Suavizada (Filtro Gaussiano)"
  const ThresholdLabel: string := "Limiarização (Thresholding)"
  const MorphLabel: string := "Operações Morfológicas"
  const ContoursLabelPrefix: string := "Contornos Detectados - Objetos: "
  const OverlayPrefix: string := "Objetos Detectados: "

  function Blurred(original: Image): Image {
    GaussianBlur(BgrToGray(original), BlurSize, BlurSize, BlurSigma)
  }

  function Binary(original: Image): Image {
    ThresholdBinaryInv(Blurred(original), Threshold, MaxValue)
  }

  /** An opening (removes specks) followed by a closing (joins fragments). */
  function Cleaned(original: Image): Image {
    MorphClose(MorphOpen(Binary(original), KernelSize, KernelSize, Iterations), KernelSize, KernelSize, Iterations)
  }

  /** The contours drawn on a copy of the original, with the count written at the top left. */
  function Annotated(original: Image, contours: seq<Contour>): Image {
    PutText(DrawContours(original, contours, Green, Thickness),
            OverlayPrefix + Decimal(|contours|), TextOrigin, FontScale, Green, Thickness)
  }

  /** The six images of one run, in the order they are appended to the gallery. */
  function StageImages(original: Image, contours: seq<Contour>): (images: seq<Image>)
    ensures |images| == 6 && images[0] == original
  {
    [original, GrayToBgr(BgrToGray(original)), GrayToBgr(Blurred(original)),
     GrayToBgr(Binary(original)), GrayToBgr(Cleaned(original)), Annotated(original, contours)]
  }

  /** The six stage names of one run; only the last one depends on the run, through the count. */
  function StageLabels(count: nat): (labels: seq<string>)
    ensures |labels| == 6
    ensures labels[..5] == [OriginalLabel, GrayLabel, BlurLabel, ThresholdLabel, MorphLabel]
    ensures ObjectCount(labels[5]) == Some(count)
    ensures forall i :: 0 <= i < 5 ==> ObjectCount(labels[i]) == None
  {
    DecimalRoundTrip(count);
    var last := ContoursLabelPrefix + Decimal(count);
    assert last[|ContoursLabelPrefix|..] == Decimal(count);
    [OriginalLabel, GrayLabel, BlurLabel, ThresholdLabel, MorphLabel, last]
  }

  /** The object count a stage name announces, if it is the name of the contour stage. */
  function ObjectCount(name: string): Option<nat> {
    if |name| > |ContoursLabelPrefix| && name[..|ContoursLabelPrefix|] == ContoursLabelPrefix &&
       AllDigits(name[|ContoursLabelPrefix|..])
    then Some(DigitsValue(name[|ContoursLabelPrefix|..]))
    else None
  }
}
