/**
 * The stage gallery of the colony counter: the process-wide state the GUI
 * callbacks share (the chosen path, the list of stage images, the list of
 * stage names and the cursor of the stage on screen), the two button
 * callbacks that change it, and the two helpers they call. The window, the dialogs and the message boxes are
 * not modelled; what they hand back to the callbacks arrives as inputs.
 */
module Contador {
  import opened Wrappers
  import opened Vision
  import opened Exporter
  import opened Numerals

  /**
   * What the callbacks learn from outside the program: whether PIL can open
   * the chosen file for the preview, what cv2.imread decodes from it, the
   * contours cv2.findContours finds in a cleaned binary image, and the wall
   * clock at the moment of the export.
   */
  datatype Host = Host(
    previewOpens: string -> bool,
    imread: string -> Image,
    findContours: Image -> seq<Contour>,
    now: Timestamp)

  /** A stage as shown on screen: its image and the caption under it. */
  datatype View = View(image: Image, caption: string)

  /** How a "load" ended. */
  datatype Outcome =
    | Cancelled                                       // the dialog returned no path
    | PreviewFailed                                   // PIL raised while opening the preview
    | ReadFailed                                      // cv2.imread gave None; cvtColor raised
    | Exported(path: string, image: Image, count: nat) // all six stages built, last one written

  /** What pressing "Avançar" does: show the next stage, or announce the end. */
  datatype Advance = Shown(view: View) | AtEnd

  /** A path counts as chosen only when it is non-empty, like Python's `if file_path:`. */
  predicate Chosen(dialog: Option<string>) {
    dialog.Some? && dialog.value != ""
  }

  /** The cursor after one press of "Avançar" on a gallery of `count` stages. */
  function Step(cursor: int, count: nat): (next: int)
    ensures 0 <= cursor < count ==> 0 <= next < count
    ensures next == cursor || next == cursor + 1
    ensures next == cursor + 1 <==> cursor < count - 1
  {
    if cursor < count - 1 then cursor + 1 else cursor
  }

  /** The cursor after `presses` presses of "Avançar", starting from the first stage. */
  function Browse(presses: nat, count: nat): int {
    if presses == 0 then 0 else Step(Browse(presses - 1, count), count)
  }

  /** Browsing a non-empty gallery walks one stage per press and then stays on the last one. */
  lemma {:induction false} BrowseStopsAtLast(presses: nat, count: nat)
    requires count >= 1
    ensures Browse(presses, count) == if presses < count then presses else count - 1
  {
    if presses > 0 {
      BrowseStopsAtLast(presses - 1, count);
    }
  }

  /** On an empty gallery the cursor never leaves 0. */
  lemma {:induction false} BrowseOnEmpty(presses: nat, count: nat)
    requires count == 0
    ensures Browse(presses, count) == 0
  {
    if presses > 0 {
      BrowseOnEmpty(presses - 1, count);
    }
  }

  /** Six appends, one element at a time, add the six elements in order. */
  lemma AppendSix<T>(s: seq<T>, a: T, b: T, c: T, d: T, e: T, f: T)
    ensures s + [a] + [b] + [c] + [d] + [e] + [f] == s + [a, b, c, d, e, f]
  {
  }

  class Session {
    var imagePath: Option<string>
    var stages: seq<Image>
    var stageNames: seq<string>
    var currentStage: int

    /** Every stage has a name, and the cursor is on a stage (or at 0 when there is none). */
    ghost predicate Valid()
      reads this
    {
      |stages| == |stageNames| &&
      0 <= currentStage && (currentStage < |stages| || (stages == [] && currentStage == 0))
    }

    /** The state at program start. */
    constructor ()
      ensures Valid()
      ensures imagePath == None && stages == [] && stageNames == [] && currentStage == 0
    {
      imagePath := None;
      stages := [];
      stageNames := [];
      currentStage := 0;
    }

    /** The stage the screen shows, if the guard of the display routine lets it through. */
    function CurrentView(): (v: Option<View>)
      requires Valid()
      reads this
      ensures v.Some? <==> stages != []
      ensures v.Some? ==> v.value.image == stages[currentStage] && v.value.caption == stageNames[currentStage]
    {
      if stages != [] && 0 <= currentStage < |stages|
      then Some(View(stages[currentStage], stageNames[currentStage]))
      else None
    }

    /**
     * Runs the pipeline on the image at `imagePath` and appends its stages.
     * When cv2.imread cannot decode the file, only the original stage (None)
     * has been appended by the time the grayscale conversion raises.
     */
    method ProcessStages(host: Host) returns (outcome: Outcome)
      requires Valid() && imagePath.Some? && ValidTimestamp(host.now)
      modifies this
      ensures Valid()
      ensures imagePath == old(imagePath) && currentStage == old(currentStage)
      ensures var original := host.imread(imagePath.value);
              var contours := host.findContours(Cleaned(original));
              if original == Unreadable then
                outcome == ReadFailed &&
                stages == old(stages) + [Unreadable] && stageNames == old(stageNames) + [OriginalLabel]
              else
                outcome == Exported(OutputPath(host.now), Annotated(original, contours), |contours|) &&
                stages == old(stages) + StageImages(original, contours) &&
                stageNames == old(stageNames) + StageLabels(|contours|)
    {
      ghost var stages0, names0 := stages, stageNames;
      var image := host.imread(imagePath.value);

      stages := stages + [image];
      stageNames := stageNames + [OriginalLabel];
      if image == Unreadable {
        return ReadFailed;
      }

      var gray := BgrToGray(image);
      stages := stages + [GrayToBgr(gray)];
      stageNames := stageNames + [GrayLabel];

      var blurred := GaussianBlur(gray, BlurSize, BlurSize, BlurSigma);
      stages := stages + [GrayToBgr(blurred)];
      stageNames := stageNames + [BlurLabel];

      var thresh := ThresholdBinaryInv(blurred, Threshold, MaxValue);
      stages := stages + [GrayToBgr(thresh)];
      stageNames := stageNames + [ThresholdLabel];

      var morph := MorphOpen(thresh, KernelSize, KernelSize, Iterations);
      morph := MorphClose(morph, KernelSize, KernelSize, Iterations);
      stages := stages + [GrayToBgr(morph)];
      stageNames := stageNames + [MorphLabel];

      var contours := host.findContours(morph);
      var contourImage := DrawContours(image, contours, Green, Thickness);
      var numObjects := |contours|;
      contourImage := PutText(contourImage, OverlayPrefix + Decimal(numObjects), TextOrigin, FontScale, Green, Thickness);
      stages := stages + [contourImage];
      stageNames := stageNames + [ContoursLabelPrefix + Decimal(numObjects)];
      AppendSix(stages0, image, GrayToBgr(gray), GrayToBgr(blurred), GrayToBgr(thresh), GrayToBgr(morph), contourImage);
      AppendSix(names0, OriginalLabel, GrayLabel, BlurLabel, ThresholdLabel, MorphLabel,
                ContoursLabelPrefix + Decimal(numObjects));

      outcome := Exported(OutputPath(host.now), contourImage, numObjects);
    }

    /**
     * The "Selecionar Imagem" callback: on a chosen path whose preview opens,
     * discards the previous gallery, rebuilds it and shows its first stage.
     */
    method Load(dialog: Option<string>, host: Host) returns (outcome: Outcome)
      requires Valid() && ValidTimestamp(host.now)
      modifies this
      ensures Valid()
      ensures !Chosen(dialog) ==>
                outcome == Cancelled &&
                imagePath == old(imagePath) && stages == old(stages) &&
                stageNames == old(stageNames) && currentStage == old(currentStage)
      ensures Chosen(dialog) ==> imagePath == dialog
      ensures Chosen(dialog) && !host.previewOpens(dialog.value) ==>
                outcome == PreviewFailed &&
                stages == old(stages) && stageNames == old(stageNames) && currentStage == old(currentStage)
      ensures Chosen(dialog) && host.previewOpens(dialog.value) ==>
                var original := host.imread(dialog.value);
                var contours := host.findContours(Cleaned(original));
                currentStage == 0 &&
                (original == Unreadable ==>
                   outcome == ReadFailed && stages == [Unreadable] && stageNames == [OriginalLabel]) &&
                (original != Unreadable ==>
                   outcome == Exported(OutputPath(host.now), Annotated(original, contours), |contours|) &&
                   stages == StageImages(original, contours) && stageNames == StageLabels(|contours|) &&
                   CurrentView() == Some(View(original, OriginalLabel)))
    {
      if !Chosen(dialog) {
        return Cancelled;
      }
      imagePath := dialog;
      if !host.previewOpens(dialog.value) {
        return PreviewFailed;
      }

      stages := [];
      stageNames := [];
      currentStage := 0;

      outcome := ProcessStages(host);
    }

    /** The "Avançar" callback: moves to the next stage unless the last one is on screen. */
    method NextStage() returns (r: Advance)
      requires Valid()
      modifies this`currentStage
      ensures Valid()
      ensures currentStage == Step(old(currentStage), |stages|)
      ensures old(currentStage) < |stages| - 1 ==>
                r == Shown(View(stages[currentStage], stageNames[currentStage]))
      ensures old(currentStage) >= |stages| - 1 ==> r == AtEnd
    {
      if currentStage < |stages| - 1 {
        currentStage := currentStage + 1;
        r := Shown(CurrentView().value);
      } else {
        r := AtEnd;
      }
    }
  }

  /**
   * Presses "Avançar" six times on a session whose cursor is on the first
   * stage: the cursor after each press, and what the sixth press reports.
   */
  method PressSixTimes(session: Session) returns (cursors: seq<int>, last: Advance)
    requires session.Valid() && session.currentStage == 0
    modifies session`currentStage
    ensures session.Valid() && session.currentStage == Browse(6, |session.stages|)
    ensures session.stages == old(session.stages) && session.stageNames == old(session.stageNames)
    ensures var n := |session.stages|;
            cursors == [Browse(1, n), Browse(2, n), Browse(3, n), Browse(4, n), Browse(5, n), Browse(6, n)] &&
            (last == AtEnd <==> Browse(5, n) >= n - 1)
  {
    ghost var n := |session.stages|;
    cursors := [];
    last := AtEnd;
    var presses := 0;
    while presses < 6
      invariant 0 <= presses <= 6 && |cursors| == presses
      invariant session.stages == old(session.stages) && session.stageNames == old(session.stageNames)
      invariant session.Valid()
      invariant session.currentStage == Browse(presses, n)
      invariant forall i :: 0 <= i < presses ==> cursors[i] == Browse(i + 1, n)
      invariant presses > 0 ==> (last == AtEnd <==> Browse(presses - 1, n) >= n - 1)
    {
      last := session.NextStage();
      cursors := cursors + [session.currentStage];
      presses := presses + 1;
    }
  }

  /**
   * A user picks `path` and then presses "Avançar" six times: the cursor after
   * each press, and what the sixth press reports.
   */
  method BrowseFreshGallery(path: string, host: Host) returns (cursors: seq<int>, last: Advance)
    requires ValidTimestamp(host.now)
    ensures path != "" && host.previewOpens(path) && host.imread(path) != Unreadable ==>
              cursors == [1, 2, 3, 4, 5, 5] && last == AtEnd
    ensures !(path != "" && host.previewOpens(path) && host.imread(path) != Unreadable) ==>
              cursors == [0, 0, 0, 0, 0, 0] && last == AtEnd
  {
    var session := new Session();
    var _ := session.Load(Some(path), host);
    ghost var n := |session.stages|;
    assert n == 6 || n <= 1;
    cursors, last := PressSixTimes(session);
    if n >= 1 {
      BrowseStopsAtLast(1, n); BrowseStopsAtLast(2, n); BrowseStopsAtLast(3, n);
      BrowseStopsAtLast(4, n); BrowseStopsAtLast(5, n); BrowseStopsAtLast(6, n);
    } else {
      BrowseOnEmpty(1, n); BrowseOnEmpty(2, n); BrowseOnEmpty(3, n);
      BrowseOnEmpty(4, n); BrowseOnEmpty(5, n); BrowseOnEmpty(6, n);
    }
  }
}
