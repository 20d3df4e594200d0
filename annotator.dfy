/**
 * The card-detection annotator: turns the detector's boxes into labels and draws them on the
 * frame. Drawing is modelled as a list of abstract draw commands appended to the frame.
 */
module Annotator {
  import opened Wrappers
  import opened CardLabels

  /** One detector box: corners in pixels, class id, and a confidence that is only displayed. */
  datatype Detection = Detection(x1: int, y1: int, x2: int, y2: int, classId: int, confidence: real)

  /** What the annotator draws; colour (green), font and thickness are the same for all. */
  datatype DrawCmd =
    | Rectangle(x1: int, y1: int, x2: int, y2: int)              // the box around a card
    | Caption(text: string, confidence: real, x: int, y: int)     // "<label> (<confidence>)" above it
    | Text(text: string, x: int, y: int)                          // one line of the summary list

  /** The raster image, seen through what has been drawn on it. */
  class Frame {
    const height: nat
    var drawn: seq<DrawCmd>

    constructor (height: nat)
      ensures this.height == height && drawn == []
    {
      this.height := height;
      drawn := [];
    }
  }

  predicate Resolves(d: Detection)
  {
    CardLabel(d.classId).Some?
  }

  /** All boxes of all inference results, in emission order. */
  function Flatten(results: seq<seq<Detection>>): seq<Detection>
  {
    if results == [] then [] else Flatten(results[..|results| - 1]) + results[|results| - 1]
  }

  /** The label of a detection that resolves. */
  function LabelOf(d: Detection): string
    requires Resolves(d)
  {
    CardLabel(d.classId).value
  }

  /** The detections that get a label, in order. */
  function Kept(ds: seq<Detection>): (r: seq<Detection>)
    ensures forall i :: 0 <= i < |r| ==> Resolves(r[i])
  {
    if ds == [] then []
    else Kept(ds[..|ds| - 1]) + (if Resolves(ds[|ds| - 1]) then [ds[|ds| - 1]] else [])
  }

  /** The list `detected_labels` after the detection loops. */
  function Labels(ds: seq<Detection>): seq<string>
  {
    if ds == [] then []
    else
      var d := ds[|ds| - 1];
      Labels(ds[..|ds| - 1]) + (if Resolves(d) then [LabelOf(d)] else [])
  }

  /** What the detection loops draw for one detection. */
  function BoxCommandsOf(d: Detection): seq<DrawCmd>
  {
    if Resolves(d) then
      [Rectangle(d.x1, d.y1, d.x2, d.y2), Caption(LabelOf(d), d.confidence, d.x1, d.y1 - 10)]
    else []
  }

  /** What the detection loops draw for all detections. */
  function BoxCommands(ds: seq<Detection>): seq<DrawCmd>
  {
    if ds == [] then [] else BoxCommands(ds[..|ds| - 1]) + BoxCommandsOf(ds[|ds| - 1])
  }

  /** The summary list: label k at (10, top - 30 * k). */
  function Summary(labels: seq<string>, top: int): seq<DrawCmd>
  {
    if labels == [] then []
    else Summary(labels[..|labels| - 1], top) + [Text(labels[|labels| - 1], 10, top - 30 * (|labels| - 1))]
  }

  /** Everything `detect_cards` draws on a frame of the given height. */
  function AnnotationPlan(ds: seq<Detection>, height: int): seq<DrawCmd>
  {
    var labels := Labels(ds);
    BoxCommands(ds) + (if labels == [] then [] else Summary(labels, height - 30))
  }

  /**
   * `detect_cards` after inference: draws on `image` in place and yields the label list.
   * `results` stands for what the detector returned (one list of boxes per result).
   */
  method DetectCards(image: Frame, results: seq<seq<Detection>>) returns (labels: seq<string>)
    modifies image
    ensures labels == Labels(Flatten(results))
    ensures image.drawn == old(image.drawn) + AnnotationPlan(Flatten(results), image.height)
    ensures labels == [] ==> image.drawn == old(image.drawn)
  {
    labels := DrawBoxes(image, results);
    if labels != [] {
      DrawSummary(image, labels);
    } else {
      LabelsAt(Flatten(results));
      BoxCommandsAt(Flatten(results));
      assert BoxCommands(Flatten(results)) == [];
    }
  }

  /** The detection loops of `detect_cards`: a box and a caption per resolving detection. */
  method DrawBoxes(image: Frame, results: seq<seq<Detection>>) returns (labels: seq<string>)
    modifies image
    ensures labels == Labels(Flatten(results))
    ensures image.drawn == old(image.drawn) + BoxCommands(Flatten(results))
  {
    labels := [];
    ghost var before := image.drawn;
    var i := 0;
    while i < |results|
      invariant 0 <= i <= |results|
      invariant labels == Labels(Flatten(results[..i]))
      invariant image.drawn == before + BoxCommands(Flatten(results[..i]))
    {
      ghost var done := Flatten(results[..i]);
      ghost var drawnSoFar := image.drawn;
      var more := DrawResultBoxes(image, results[i]);
      labels := labels + more;
      FlattenStep(results, i);
      LabelsAppend(done, results[i]);
      BoxCommandsAppend(done, results[i]);
      assert before + (BoxCommands(done) + BoxCommands(results[i])) == before + BoxCommands(done) + BoxCommands(results[i]);
      i := i + 1;
    }
    assert results[..i] == results;
  }

  /** The inner loop, over the boxes of one inference result. */
  method DrawResultBoxes(image: Frame, boxes: seq<Detection>) returns (labels: seq<string>)
    modifies image
    ensures labels == Labels(boxes)
    ensures image.drawn == old(image.drawn) + BoxCommands(boxes)
  {
    labels := [];
    ghost var before := image.drawn;
    for j := 0 to |boxes|
      invariant labels == Labels(boxes[..j])
      invariant image.drawn == before + BoxCommands(boxes[..j])
    {
      ExtendStep(before, boxes, j);
      var cardLabel := DrawBox(image, boxes[j]);
      if cardLabel.Some? {
        labels := labels + [cardLabel.value];
      }
    }
    assert boxes[..|boxes|] == boxes;
  }

  /** The body of the inner loop: label one box and, if it resolves, draw its box and caption. */
  method DrawBox(image: Frame, box: Detection) returns (cardLabel: Option<string>)
    modifies image
    ensures cardLabel == CardLabel(box.classId)
    ensures image.drawn == old(image.drawn) + BoxCommandsOf(box)
  {
    cardLabel := CardLabel(box.classId);
    if cardLabel.Some? {
      image.drawn := image.drawn + [Rectangle(box.x1, box.y1, box.x2, box.y2)];
      image.drawn := image.drawn + [Caption(cardLabel.value, box.confidence, box.x1, box.y1 - 10)];
    }
  }

  /** The summary loop of `detect_cards`: the labels stacked upwards from 30 px above the bottom. */
  method DrawSummary(image: Frame, labels: seq<string>)
    modifies image
    ensures image.drawn == old(image.drawn) + Summary(labels, image.height - 30)
  {
    ghost var before := image.drawn;
    var y := image.height - 30;
    for k := 0 to |labels|
      invariant y == image.height - 30 - 30 * k
      invariant image.drawn == before + Summary(labels[..k], image.height - 30)
    {
      SummaryStep(labels, k, image.height - 30);
      image.drawn := image.drawn + [Text(labels[k], 10, y)];
      y := y - 30;
    }
    assert labels[..|labels|] == labels;
  }

  lemma ExtendStep(before: seq<DrawCmd>, boxes: seq<Detection>, j: nat)
    requires j < |boxes|
    ensures var d, now, next := boxes[j], boxes[..j], boxes[..j + 1];
      Labels(next) == Labels(now) + (if Resolves(d) then [LabelOf(d)] else []) &&
      before + BoxCommands(next) == before + BoxCommands(now) + BoxCommandsOf(d)
  {
    assert boxes[..j + 1][..j] == boxes[..j];
  }

  lemma {:induction false} LabelsAppend(a: seq<Detection>, b: seq<Detection>)
    ensures Labels(a + b) == Labels(a) + Labels(b)
  {
    if b != [] {
      var b' := b[..|b| - 1];
      assert (a + b)[..|a + b| - 1] == a + b';
      LabelsAppend(a, b');
    } else {
      assert a + b == a;
    }
  }

  lemma {:induction false} BoxCommandsAppend(a: seq<Detection>, b: seq<Detection>)
    ensures BoxCommands(a + b) == BoxCommands(a) + BoxCommands(b)
  {
    if b != [] {
      var b' := b[..|b| - 1];
      assert (a + b)[..|a + b| - 1] == a + b';
      BoxCommandsAppend(a, b');
    } else {
      assert a + b == a;
    }
  }

  lemma FlattenStep(results: seq<seq<Detection>>, i: nat)
    requires i < |results|
    ensures Flatten(results[..i + 1]) == Flatten(results[..i]) + results[i]
  {
    assert results[..i + 1][..i] == results[..i];
  }

  lemma SummaryStep(labels: seq<string>, k: nat, top: int)
    requires k < |labels|
    ensures Summary(labels[..k + 1], top) == Summary(labels[..k], top) + [Text(labels[k], 10, top - 30 * k)]
  {
    assert labels[..k + 1][..k] == labels[..k];
  }

  /** Keeping commutes with concatenation: the kept detections stay in emission order. */
  lemma {:induction false} KeptAppend(a: seq<Detection>, b: seq<Detection>)
    ensures Kept(a + b) == Kept(a) + Kept(b)
  {
    if b != [] {
      var b' := b[..|b| - 1];
      assert (a + b)[..|a + b| - 1] == a + b';
      KeptAppend(a, b');
    } else {
      assert a + b == a;
    }
  }

  /** Each detection is kept as often as it occurs if it resolves, and never otherwise. */
  lemma {:induction false} KeptMultiplicity(ds: seq<Detection>)
    ensures forall d :: multiset(Kept(ds))[d] == if Resolves(d) then multiset(ds)[d] else 0
  {
    if ds != [] {
      var prefix := ds[..|ds| - 1];
      KeptMultiplicity(prefix);
      assert ds == prefix + [ds[|ds| - 1]];
    }
  }

  /** The i-th label belongs to the i-th kept detection; one label per kept detection. */
  lemma {:induction false} LabelsAt(ds: seq<Detection>)
    ensures |Labels(ds)| == |Kept(ds)|
    ensures forall i :: 0 <= i < |Kept(ds)| ==> Labels(ds)[i] == LabelOf(Kept(ds)[i])
  {
    if ds != [] {
      LabelsAt(ds[..|ds| - 1]);
    }
  }

  /** The detection loops draw a box and then a caption for each kept detection, in order. */
  lemma {:induction false} BoxCommandsAt(ds: seq<Detection>)
    ensures |BoxCommands(ds)| == 2 * |Kept(ds)|
    ensures forall i :: 0 <= i < |Kept(ds)| ==>
      var d := Kept(ds)[i];
      BoxCommands(ds)[2 * i] == Rectangle(d.x1, d.y1, d.x2, d.y2) &&
      BoxCommands(ds)[2 * i + 1] == Caption(LabelOf(d), d.confidence, d.x1, d.y1 - 10)
  {
    if ds != [] {
      BoxCommandsAt(ds[..|ds| - 1]);
    }
  }

  /** Summary line k is drawn at (10, top - 30 * k). */
  lemma {:induction false} SummaryAt(labels: seq<string>, top: int)
    ensures |Summary(labels, top)| == |labels|
    ensures forall k :: 0 <= k < |labels| ==> Summary(labels, top)[k] == Text(labels[k], 10, top - 30 * k)
  {
    if labels != [] {
      SummaryAt(labels[..|labels| - 1], top);
    }
  }

  /** The plan holds three commands per kept detection: its box, its caption and its summary line. */
  lemma PlanLength(ds: seq<Detection>, height: int)
    ensures |AnnotationPlan(ds, height)| == 3 * |Kept(ds)|
  {
    LabelsAt(ds);
    BoxCommandsAt(ds);
    SummaryAt(Labels(ds), height - 30);
  }

  /** The i-th kept detection's box is command 2i of the plan and its caption command 2i + 1. */
  lemma PlanBoxAt(ds: seq<Detection>, height: int, i: nat)
    requires i < |Kept(ds)|
    ensures 2 * i + 1 < |AnnotationPlan(ds, height)|
    ensures var d, plan := Kept(ds)[i], AnnotationPlan(ds, height);
      plan[2 * i] == Rectangle(d.x1, d.y1, d.x2, d.y2) &&
      plan[2 * i + 1] == Caption(LabelOf(d), d.confidence, d.x1, d.y1 - 10)
  {
    BoxCommandsAt(ds);
    var boxes := BoxCommands(ds);
    var rest := if Labels(ds) == [] then [] else Summary(Labels(ds), height - 30);
    assert AnnotationPlan(ds, height) == boxes + rest;
  }

  /**
   * The i-th kept detection's label is summary line i, command 2n + i of the plan (n kept
   * detections), drawn at (10, height - 30 - 30 i).
   */
  lemma PlanLineAt(ds: seq<Detection>, height: int, i: nat)
    requires i < |Kept(ds)|
    ensures 2 * |Kept(ds)| + i < |AnnotationPlan(ds, height)|
    ensures AnnotationPlan(ds, height)[2 * |Kept(ds)| + i] == Text(LabelOf(Kept(ds)[i]), 10, height - 30 - 30 * i)
  {
    LabelsAt(ds);
    BoxCommandsAt(ds);
    var labels := Labels(ds);
    SummaryAt(labels, height - 30);
    var boxes, lines := BoxCommands(ds), Summary(labels, height - 30);
    assert AnnotationPlan(ds, height) == boxes + lines;
    assert (boxes + lines)[|boxes| + i] == lines[i];
  }

  /** Nothing is drawn and no label is produced exactly when no detection resolves. */
  lemma NothingDrawnIff(ds: seq<Detection>, height: int)
    ensures AnnotationPlan(ds, height) == [] <==> forall d :: d in ds ==> !Resolves(d)
    ensures Labels(ds) == [] <==> forall d :: d in ds ==> !Resolves(d)
  {
    PlanLength(ds, height);
    LabelsAt(ds);
    KeptMultiplicity(ds);
    if Kept(ds) != [] {
      var d := Kept(ds)[0];
      assert multiset(Kept(ds))[d] > 0;
    } else {
      forall d | d in ds ensures !Resolves(d) {
        assert multiset(ds)[d] > 0;
      }
    }
  }

  /** A single box of class 7 (rank "2", no colour) yields label "2", one box, one caption, one line. */
  lemma SingleRankTwoCard(height: int)
    ensures var ds := [Detection(10, 10, 50, 50, 7, 0.91)];
      Labels(ds) == ["2"] &&
      AnnotationPlan(ds, height) == [Rectangle(10, 10, 50, 50), Caption("2", 0.91, 10, 0), Text("2", 10, height - 30)]
  {
    var ds := [Detection(10, 10, 50, 50, 7, 0.91)];
    assert ds[..0] == [];
    assert CardLabel(7) == Some("2");
    assert Labels(ds) == ["2"];
    assert BoxCommands(ds) == [Rectangle(10, 10, 50, 50), Caption("2", 0.91, 10, 0)];
    assert ["2"][..0] == [];
    assert Summary(["2"], height - 30) == [Text("2", 10, height - 30)];
  }
}
