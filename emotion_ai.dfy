/**
 * Model of modules/emotion_ai.py: the padded face box, the classifier read-out
 * (arg-max over the 8-label output vector), the backend chosen at load time and
 * the 5-entry smoothing window that `predict` feeds.
 *
 * The face detector, the colour conversion and resize, and the network itself
 * are inputs here: the detector's first box arrives as whole pixels
 * (`RawBox`), and one inference call arrives as an `InferenceOutcome`.
 */
module EmotionAI {
  import opened Seqs

  /** Classifier label order: entry i of the output vector belongs to label i. */
  const Emotions: seq<string> :=
    ["Angry", "Contempt", "Disgust", "Fear", "Happy", "Neutral", "Sad", "Surprise"]
  const HistorySize: nat := 5
  const NoFaceLabel: string := "No Face"
  const NeutralLabel: string := "Neutral"

  /** A captured 3-channel frame, known by its pixel dimensions. */
  datatype Frame = Frame(height: nat, width: nat)

  /** The detector's first (most confident) box, converted to whole pixels. */
  datatype RawBox = RawBox(x: int, y: int, width: nat, height: nat)

  /** The padded and clamped face region returned as `bbox`. */
  datatype Box = Box(x: int, y: int, width: int, height: int)

  /** Shape of the face crop `frame[y:y+height, x:x+width]`. */
  datatype Crop = Crop(rows: nat, cols: nat)

  /** The `(1, n, n, 1)` uint8 tensor handed to the classifier. */
  datatype Tensor = Tensor(edge: int)

  /** One call into the active backend: its output vector, or an exception. */
  datatype InferenceOutcome = Output(preds: seq<real>) | Raised

  /** Loading one model artifact: its declared input edge, or an exception. */
  datatype LoadOutcome = LoadOk(inputSize: int) | LoadFailed

  /** `(emotion, confidence, probabilities)`; the dict is kept as an ordered list of pairs. */
  datatype Classification = Classification(emotion: string, confidence: real, probabilities: seq<(string, real)>)

  datatype PredictionResult = PredictionResult(
    emotion: string,
    confidence: real,
    probabilities: seq<(string, real)>,
    bbox: Option<Box>,
    faceDetected: bool)

  const Degraded: Classification := Classification(NeutralLabel, 0.0, [])
  const NoFaceResult: PredictionResult := PredictionResult(NoFaceLabel, 0.0, [], None, false)

  function Max(a: int, b: int): int { if a >= b then a else b }
  function Min(a: int, b: int): int { if a <= b then a else b }

  // ---------------------------------------------------------------- face box

  /** Ten percent of the larger side, truncated: `int(0.1 * max(width, height))`. */
  function Padding(width: nat, height: nat): (p: nat)
    ensures 10 * p <= Max(width, height) < 10 * p + 10
  {
    Max(width, height) / 10
  }

  /** The detector box grown by the padding on each side and clamped to the frame. */
  function PadBox(frame: Frame, raw: RawBox): (b: Box)
    ensures 0 <= b.x <= Max(0, raw.x) && 0 <= b.y <= Max(0, raw.y)
    ensures b.width <= frame.width - b.x && b.height <= frame.height - b.y
    ensures b.width <= raw.width + 2 * Padding(raw.width, raw.height)
    ensures b.height <= raw.height + 2 * Padding(raw.width, raw.height)
  {
    var p := Padding(raw.width, raw.height);
    var x := Max(0, raw.x - p);
    var y := Max(0, raw.y - p);
    Box(x, y, Min(frame.width - x, raw.width + 2 * p), Min(frame.height - y, raw.height + 2 * p))
  }

  /** A detector box that lies inside the frame is inside its padded box. */
  lemma PadBoxContainsDetection(frame: Frame, raw: RawBox)
    requires 0 <= raw.x && raw.x + raw.width <= frame.width
    requires 0 <= raw.y && raw.y + raw.height <= frame.height
    ensures var b := PadBox(frame, raw);
      b.x <= raw.x && raw.x + raw.width <= b.x + b.width &&
      b.y <= raw.y && raw.y + raw.height <= b.y + b.height
  {
  }

  /** With room on every side, the box grows by exactly the padding on each side. */
  lemma PadBoxExact(frame: Frame, raw: RawBox)
    requires var p := Padding(raw.width, raw.height);
      p <= raw.x && raw.x + raw.width + p <= frame.width &&
      p <= raw.y && raw.y + raw.height + p <= frame.height
    ensures var p := Padding(raw.width, raw.height);
      PadBox(frame, raw) == Box(raw.x - p, raw.y - p, raw.width + 2 * p, raw.height + 2 * p)
  {
  }

  /**
   * `detect_face`: nothing for a missing or empty frame or when the detector
   * finds no face; otherwise the crop and the padded box.
   */
  function DetectFace(frame: Option<Frame>, detection: Option<RawBox>): (r: Option<(Crop, Box)>)
    ensures r.Some? <==>
      frame.Some? && frame.value.height > 0 && frame.value.width > 0 && detection.Some?
    ensures r.Some? ==> r.value.1 == PadBox(frame.value, detection.value)
    ensures r.Some? ==>
      (r.value.0.rows == 0 || r.value.0.cols == 0 <==> r.value.1.width <= 0 || r.value.1.height <= 0)
  {
    if frame.None? || frame.value.height * frame.value.width == 0 then None
    else if detection.None? then None
    else
      var b := PadBox(frame.value, detection.value);
      Some((Crop(Max(0, b.height), Max(0, b.width)), b))
  }

  /** `preprocess_face`: nothing for a missing or empty crop, else a tensor of the model's edge. */
  function PreprocessFace(crop: Option<Crop>, inputSize: int): (t: Option<Tensor>)
    ensures t.Some? <==> crop.Some? && crop.value.rows > 0 && crop.value.cols > 0
    ensures t.Some? ==> t.value.edge == inputSize
  {
    if crop.None? || crop.value.rows * crop.value.cols == 0 then None
    else Some(Tensor(inputSize))
  }

  // ---------------------------------------------------------- classification

  /** `np.argmax`: the first index holding the largest value. */
  function ArgMax(s: seq<real>): (i: nat)
    requires |s| > 0
    ensures i < |s|
    ensures forall j :: 0 <= j < |s| ==> s[j] <= s[i]
    ensures forall j :: 0 <= j < i ==> s[j] < s[i]
  {
    if |s| == 1 then 0
    else
      var k := ArgMax(s[..|s| - 1]);
      if s[|s| - 1] > s[k] then |s| - 1 else k
  }

  /** The label-to-probability dict, in label order. */
  function ProbabilityMap(preds: seq<real>): (m: seq<(string, real)>)
    requires |preds| >= |Emotions|
    ensures |m| == |Emotions|
    ensures forall k :: 0 <= k < |m| ==> m[k] == (Emotions[k], preds[k])
  {
    seq(|Emotions|, k requires 0 <= k < |Emotions| => (Emotions[k], preds[k]))
  }

  /**
   * The read-out succeeds only when the vector covers all 8 labels and its
   * arg-max names one of them; otherwise indexing raises and the call degrades.
   */
  predicate Readable(outcome: InferenceOutcome)
  {
    outcome.Output? && |outcome.preds| >= |Emotions| && ArgMax(outcome.preds) < |Emotions|
  }

  // ----------------------------------------------------------- the smoother

  /** One `smooth_prediction` step on the window: append, then drop the oldest beyond 5. */
  function Slide(h: seq<(string, real)>, x: (string, real)): (w: seq<(string, real)>)
    ensures |h| <= HistorySize ==> |w| <= HistorySize
    ensures w != [] && w[|w| - 1] == x
  {
    if |h + [x]| > HistorySize then (h + [x])[1..] else h + [x]
  }

  /** The last `n` entries of `s` (all of them when there are fewer). */
  function LastN<T>(s: seq<T>, n: nat): seq<T>
  {
    if |s| <= n then s else s[|s| - n..]
  }

  /** The window after feeding `xs` one by one into an empty one. */
  function Replay(xs: seq<(string, real)>): seq<(string, real)>
  {
    if xs == [] then [] else Slide(Replay(xs[..|xs| - 1]), xs[|xs| - 1])
  }

  /** The window always holds exactly the last five pairs fed, oldest first. */
  lemma {:induction false} ReplayIsLastFive(xs: seq<(string, real)>)
    ensures Replay(xs) == LastN(xs, HistorySize)
    ensures |Replay(xs)| <= HistorySize
  {
    if xs != [] {
      var p, x := xs[..|xs| - 1], xs[|xs| - 1];
      ReplayIsLastFive(p);
      assert xs == p + [x];
      SlideLastN(p, x);
    }
  }

  /** Sliding the last five of `p` by `x` gives the last five of `p + [x]`. */
  lemma SlideLastN(p: seq<(string, real)>, x: (string, real))
    ensures Slide(LastN(p, HistorySize), x) == LastN(p + [x], HistorySize)
  {
    if |p| >= HistorySize {
      var q := p + [x];
      assert LastN(p, HistorySize) + [x] == p[|p| - HistorySize..] + [x];
      assert (p[|p| - HistorySize..] + [x])[1..] == q[|q| - HistorySize..];
    }
  }

  /** Number of window entries labelled `e`. */
  function LabelCount(h: seq<(string, real)>, e: string): nat
  {
    if h == [] then 0
    else LabelCount(h[..|h| - 1], e) + (if h[|h| - 1].0 == e then 1 else 0)
  }

  /** Sum of the window's confidences, accumulated front to back. */
  function SumConf(h: seq<(string, real)>): real
  {
    if h == [] then 0.0 else SumConf(h[..|h| - 1]) + h[|h| - 1].1
  }

  /** The keys of the `counts` dict, in insertion (first occurrence) order. */
  function FirstLabels(h: seq<(string, real)>): seq<string>
  {
    if h == [] then []
    else
      var r := FirstLabels(h[..|h| - 1]);
      if h[|h| - 1].0 in r then r else r + [h[|h| - 1].0]
  }

  /** `max(counts, key=counts.get)`: the first key, in dict order, with the largest count. */
  function PickMax(order: seq<string>, h: seq<(string, real)>): (m: string)
    requires |order| > 0
    ensures m in order
  {
    if |order| == 1 then order[0]
    else
      var b := PickMax(order[..|order| - 1], h);
      if LabelCount(h, order[|order| - 1]) > LabelCount(h, b) then order[|order| - 1] else b
  }

  /** The smoothed label of a non-empty window. */
  function Mode(h: seq<(string, real)>): string
    requires h != []
  {
    assert FirstLabels(h) != [] by { FirstLabelsNonEmpty(h); }
    PickMax(FirstLabels(h), h)
  }

  /** The smoothed confidence of a non-empty window. */
  function Mean(h: seq<(string, real)>): real
    requires h != []
  {
    SumConf(h) / (|h| as real)
  }

  lemma FirstLabelsNonEmpty(h: seq<(string, real)>)
    requires h != []
    ensures FirstLabels(h) != []
  {
  }

  lemma {:induction false} FirstLabelsMembers(h: seq<(string, real)>, e: string)
    ensures e in FirstLabels(h) <==> LabelCount(h, e) > 0
  {
    if h != [] {
      FirstLabelsMembers(h[..|h| - 1], e);
    }
  }

  lemma {:induction false} FirstLabelsDistinct(h: seq<(string, real)>)
    ensures Distinct(FirstLabels(h))
  {
    if h != [] {
      FirstLabelsDistinct(h[..|h| - 1]);
    }
  }

  /** The keys seen in a prefix of the window come first, in the same order. */
  lemma {:induction false} FirstLabelsPrefix(h: seq<(string, real)>, n: nat)
    requires n <= |h|
    ensures |FirstLabels(h[..n])| <= |FirstLabels(h)|
    ensures FirstLabels(h[..n]) == FirstLabels(h)[..|FirstLabels(h[..n])|]
  {
    if n < |h| {
      var p := h[..|h| - 1];
      assert h[..n] == p[..n];
      FirstLabelsPrefix(p, n);
    } else {
      assert h[..n] == h;
    }
  }

  lemma {:induction false} PickMaxIsMaximal(order: seq<string>, h: seq<(string, real)>)
    requires |order| > 0
    ensures forall q :: 0 <= q < |order| ==> LabelCount(h, order[q]) <= LabelCount(h, PickMax(order, h))
  {
    if |order| > 1 {
      PickMaxIsMaximal(order[..|order| - 1], h);
    }
  }

  /** Any key at least as frequent as the winner comes no earlier than the winner. */
  lemma {:induction false} PickMaxIsFirst(order: seq<string>, h: seq<(string, real)>, q: nat)
    requires q < |order| && LabelCount(h, order[q]) >= LabelCount(h, PickMax(order, h))
    ensures PickMax(order, h) in order[..q + 1]
  {
    if |order| > 1 {
      var o := order[..|order| - 1];
      var x := order[|order| - 1];
      var b := PickMax(o, h);
      if LabelCount(h, x) > LabelCount(h, b) {
        if q < |order| - 1 {
          PickMaxIsMaximal(o, h);
          assert false;
        }
      } else if q < |order| - 1 {
        assert o[q] == order[q];
        PickMaxIsFirst(o, h, q);
        assert o[..q + 1] == order[..q + 1];
      } else {
        assert order[..q + 1] == order;
        assert b in o;
      }
    }
  }

  /** The smoothed label is a most frequent label of the window. */
  lemma ModeIsMostFrequent(h: seq<(string, real)>)
    requires h != []
    ensures LabelCount(h, Mode(h)) > 0
    ensures forall e :: LabelCount(h, e) <= LabelCount(h, Mode(h))
  {
    var order := FirstLabels(h);
    FirstLabelsNonEmpty(h);
    PickMaxIsMaximal(order, h);
    FirstLabelsMembers(h, Mode(h));
    forall e ensures LabelCount(h, e) <= LabelCount(h, Mode(h)) {
      FirstLabelsMembers(h, e);
      if LabelCount(h, e) > 0 {
        var q :| 0 <= q < |order| && order[q] == e;
      }
    }
  }

  /**
   * Ties go to the label that entered the window first: wherever an equally
   * frequent label sits, the winner has already appeared at or before it.
   */
  lemma ModeTieBreak(h: seq<(string, real)>, k: nat)
    requires k < |h| && LabelCount(h, h[k].0) == LabelCount(h, Mode(h))
    ensures LabelCount(h[..k + 1], Mode(h)) > 0
  {
    FirstLabelsNonEmpty(h);
    SeenByPosition(h, k);
    FirstLabelsPrefix(h, k + 1);
    TieInPrefix(FirstLabels(h), FirstLabels(h[..k + 1]), h, h[k].0);
    FirstLabelsMembers(h[..k + 1], Mode(h));
  }

  lemma SeenByPosition(h: seq<(string, real)>, k: nat)
    requires k < |h|
    ensures h[k].0 in FirstLabels(h[..k + 1])
  {
    var p := h[..k + 1];
    assert p[..|p| - 1] == h[..k];
    assert p[|p| - 1] == h[k];
  }

  /** If a key of a prefix of `order` ties with the winner, the winner lies in that prefix too. */
  lemma TieInPrefix(order: seq<string>, pre: seq<string>, h: seq<(string, real)>, x: string)
    requires |order| > 0 && |pre| <= |order| && pre == order[..|pre|]
    requires x in pre && LabelCount(h, x) >= LabelCount(h, PickMax(order, h))
    ensures PickMax(order, h) in pre
  {
    var q :| 0 <= q < |pre| && pre[q] == x;
    assert order[q] == x;
    PickMaxIsFirst(order, h, q);
    var i :| 0 <= i < q + 1 && order[..q + 1][i] == PickMax(order, h);
    assert pre[i] == PickMax(order, h);
  }

  /** One step of the tally loop in `smooth_prediction` keeps the counts and key order exact. */
  lemma TallyStep(h: seq<(string, real)>, i: nat, counts: map<string, nat>, order: seq<string>)
    requires i < |h| && order == FirstLabels(h[..i])
    requires forall e :: e in counts <==> e in order
    requires forall e :: e in counts ==> counts[e] == LabelCount(h[..i], e)
    ensures var emo := h[i].0;
      var next := counts[emo := (if emo in counts then counts[emo] else 0) + 1];
      var order' := if emo in order then order else order + [emo];
      order' == FirstLabels(h[..i + 1]) &&
      (forall e :: e in next <==> e in order') &&
      SumConf(h[..i + 1]) == SumConf(h[..i]) + h[i].1 &&
      (forall e :: e in next ==> next[e] == LabelCount(h[..i + 1], e))
  {
    assert h[..i + 1][..i] == h[..i];
    var emo := h[i].0;
    var next := counts[emo := (if emo in counts then counts[emo] else 0) + 1];
    forall e | e in next ensures next[e] == LabelCount(h[..i + 1], e) {
      FirstLabelsMembers(h[..i], e);
    }
  }

  lemma {:induction false} SumConfBounds(h: seq<(string, real)>, lo: real, hi: real)
    requires forall k :: 0 <= k < |h| ==> lo <= h[k].1 <= hi
    ensures (|h| as real) * lo <= SumConf(h) <= (|h| as real) * hi
  {
    if h != [] {
      SumConfBounds(h[..|h| - 1], lo, hi);
    }
  }

  /** The smoothed confidence lies between the smallest and largest confidence in the window. */
  lemma MeanWithinBounds(h: seq<(string, real)>, lo: real, hi: real)
    requires h != []
    requires forall k :: 0 <= k < |h| ==> lo <= h[k].1 <= hi
    ensures lo <= Mean(h) <= hi
  {
    SumConfBounds(h, lo, hi);
    var n := |h| as real;
    assert n * lo <= SumConf(h) <= n * hi;
    assert lo == (n * lo) / n && hi == (n * hi) / n;
  }

  /** Every entry of the window is the degraded pair Neutral/0.0. */
  predicate AllDegraded(h: seq<(string, real)>)
  {
    forall k :: 0 <= k < |h| ==> h[k] == (NeutralLabel, 0.0)
  }

  /** A window of degraded pairs counts no other label. */
  lemma {:induction false} NoOtherLabel(h: seq<(string, real)>, e: string)
    requires AllDegraded(h) && e != NeutralLabel
    ensures LabelCount(h, e) == 0
  {
    if h != [] {
      NoOtherLabel(h[..|h| - 1], e);
    }
  }

  /** A window of degraded pairs smooths to Neutral with confidence 0.0. */
  lemma DegradedWindowSmooths(h: seq<(string, real)>)
    requires h != [] && AllDegraded(h)
    ensures Mode(h) == NeutralLabel && Mean(h) == 0.0
  {
    ModeIsMostFrequent(h);
    if Mode(h) != NeutralLabel {
      NoOtherLabel(h, Mode(h));
    }
    MeanWithinBounds(h, 0.0, 0.0);
  }

  /** Sliding a degraded pair into a degraded window keeps it degraded. */
  lemma SlideDegraded(h: seq<(string, real)>)
    requires AllDegraded(h)
    ensures AllDegraded(Slide(h, (NeutralLabel, 0.0)))
  {
  }

  /**
   * The first loop of `smooth_prediction`: per-label counts (a dict whose keys
   * keep first-occurrence order) and the confidence total of the window.
   */
  method Tally(h: seq<(string, real)>) returns (counts: map<string, nat>, order: seq<string>, total: real)
    ensures order == FirstLabels(h) && total == SumConf(h)
    ensures forall e :: e in counts <==> e in order
    ensures forall e :: e in counts ==> counts[e] == LabelCount(h, e)
  {
    counts, order, total := map[], [], 0.0;
    var i := 0;
    while i < |h|
      invariant 0 <= i <= |h|
      invariant total == SumConf(h[..i])
      invariant order == FirstLabels(h[..i])
      invariant forall e :: e in counts <==> e in order
      invariant forall e :: e in counts ==> counts[e] == LabelCount(h[..i], e)
    {
      var (emo, c) := h[i];
      TallyStep(h, i, counts, order);
      counts := counts[emo := (if emo in counts then counts[emo] else 0) + 1];
      if emo !in order {
        order := order + [emo];
      }
      total := total + c;
      i := i + 1;
    }
    assert h[..i] == h;
  }

  /** The second loop: `max(counts, key=counts.get)`, scanning keys in dict order. */
  method MostCounted(order: seq<string>, counts: map<string, nat>, h: seq<(string, real)>) returns (best: string)
    requires |order| > 0
    requires forall e :: e in order ==> e in counts && counts[e] == LabelCount(h, e)
    ensures best == PickMax(order, h)
  {
    best := order[0];
    var j := 1;
    while j < |order|
      invariant 1 <= j <= |order|
      invariant best == PickMax(order[..j], h)
    {
      assert order[..j + 1][..j] == order[..j];
      if counts[order[j]] > counts[best] {
        best := order[j];
      }
      j := j + 1;
    }
    assert order[..j] == order;
  }

  // ---------------------------------------------------------- the pipeline

  class EmotionAI {
    /** `self.interpreter is not None` */
    var interpreterLoaded: bool
    /** `self.keras_model is not None` */
    var kerasLoaded: bool
    var usingH5: bool
    var inputSize: int
    /** `self.emotion_history`, oldest first */
    var history: seq<(string, real)>

    /** The window holds at most five pairs. */
    ghost predicate WindowBounded()
      reads this
    {
      |history| <= HistorySize
    }

    /**
     * The window is bounded, and without a model every pair it holds is the
     * degraded Neutral/0.0 one.
     */
    ghost predicate Valid()
      reads this
    {
      WindowBounded() && (!(interpreterLoaded || kerasLoaded) ==> AllDegraded(history))
    }

    /** `__init__`: defaults, then `_load_model`, then an empty window. */
    constructor (tfliteExists: bool, h5Exists: bool, tfliteLoad: LoadOutcome, h5Load: LoadOutcome)
      ensures Valid() && history == []
      ensures !(interpreterLoaded && kerasLoaded)
      ensures interpreterLoaded <==> tfliteExists && tfliteLoad.LoadOk?
      ensures kerasLoaded <==> !tfliteExists && h5Exists && h5Load.LoadOk?
      ensures usingH5 == kerasLoaded
      ensures inputSize == (
        if tfliteExists && tfliteLoad.LoadOk? then tfliteLoad.inputSize
        else if !tfliteExists && h5Exists && h5Load.LoadOk? then h5Load.inputSize
        else 48)
    {
      interpreterLoaded, kerasLoaded, usingH5, inputSize := false, false, false, 48;
      history := [];
      new;
      LoadModel(tfliteExists, h5Exists, tfliteLoad, h5Load);
    }

    /**
     * `_load_model`: the TFLite artifact wins when it exists; otherwise the H5
     * one; otherwise nothing. A load exception leaves both handles empty.
     */
    method LoadModel(tfliteExists: bool, h5Exists: bool, tfliteLoad: LoadOutcome, h5Load: LoadOutcome)
      requires !interpreterLoaded && !kerasLoaded && !usingH5
      modifies this`interpreterLoaded, this`kerasLoaded, this`usingH5, this`inputSize
      ensures tfliteExists ==>
        !kerasLoaded && !usingH5 && (interpreterLoaded <==> tfliteLoad.LoadOk?) &&
        inputSize == (if tfliteLoad.LoadOk? then tfliteLoad.inputSize else old(inputSize))
      ensures !tfliteExists && h5Exists ==>
        !interpreterLoaded && (kerasLoaded <==> h5Load.LoadOk?) && usingH5 == kerasLoaded &&
        inputSize == (if h5Load.LoadOk? then h5Load.inputSize else old(inputSize))
      ensures !tfliteExists && !h5Exists ==>
        !interpreterLoaded && !kerasLoaded && !usingH5 && inputSize == old(inputSize)
    {
      if tfliteExists {
        match tfliteLoad
        case LoadOk(n) =>
          interpreterLoaded := true;
          inputSize := n;
          return;
        case LoadFailed =>
          interpreterLoaded, kerasLoaded := false, false;
          return;
      }
      if h5Exists {
        match h5Load
        case LoadOk(n) =>
          kerasLoaded := true;
          usingH5 := true;
          inputSize := n;
          return;
        case LoadFailed =>
          interpreterLoaded, kerasLoaded := false, false;
          return;
      }
    }

    /**
     * `predict_emotion`: Neutral/0.0/{} without a tensor, without a model, or
     * when inference or the read-out raises; otherwise the arg-max label.
     */
    function PredictEmotion(t: Option<Tensor>, outcome: InferenceOutcome): (c: Classification)
      reads this
      ensures t.None? || !(interpreterLoaded || kerasLoaded) || !Readable(outcome) ==> c == Degraded
      ensures t.Some? && (interpreterLoaded || kerasLoaded) && Readable(outcome) ==>
        var preds := outcome.preds;
        (forall j :: 0 <= j < |preds| ==> preds[j] <= c.confidence) &&
        (exists i :: 0 <= i < |Emotions| && c.emotion == Emotions[i] && c.confidence == preds[i] &&
          forall j :: 0 <= j < i ==> preds[j] < preds[i]) &&
        c.probabilities == ProbabilityMap(preds)
    {
      if t.None? then Degraded
      else if !interpreterLoaded && !kerasLoaded then Degraded
      else if !Readable(outcome) then Degraded
      else
        var i := ArgMax(outcome.preds);
        Classification(Emotions[i], outcome.preds[i], ProbabilityMap(outcome.preds))
    }

    /**
     * `smooth_prediction`: push the pair into the window, evicting the oldest
     * beyond five, and report the window's mode and mean confidence.
     */
    method SmoothPrediction(emotion: string, confidence: real) returns (smoothed: string, conf: real)
      requires WindowBounded()
      modifies this`history
      ensures WindowBounded()
      ensures history == Slide(old(history), (emotion, confidence))
      ensures smoothed == Mode(history) && conf == Mean(history)
    {
      history := history + [(emotion, confidence)];
      if |history| > HistorySize {
        history := history[1..];
      }
      var h := history;
      var counts, order, total := Tally(h);
      FirstLabelsNonEmpty(h);
      smoothed := MostCounted(order, counts, h);
      conf := total / (|h| as real);
    }

    /**
     * `predict`: without a face the window is untouched and the sentinel result
     * comes back; with one, exactly one pair enters the window and the result
     * carries the smoothed pair with this frame's raw probabilities.
     */
    method Predict(frame: Option<Frame>, detection: Option<RawBox>, outcome: InferenceOutcome)
      returns (res: PredictionResult)
      requires Valid()
      modifies this`history
      ensures Valid()
      ensures DetectFace(frame, detection).None? ==> res == NoFaceResult && history == old(history)
      ensures DetectFace(frame, detection).Some? ==>
        var (crop, box) := DetectFace(frame, detection).value;
        var c := PredictEmotion(PreprocessFace(Some(crop), inputSize), outcome);
        history == Slide(old(history), (c.emotion, c.confidence)) &&
        res == PredictionResult(Mode(history), Mean(history), c.probabilities, Some(box), true)
      ensures !(interpreterLoaded || kerasLoaded) && DetectFace(frame, detection).Some? ==>
        res == PredictionResult(NeutralLabel, 0.0, [], res.bbox, true)
    {
      var found := DetectFace(frame, detection);
      if found.None? {
        return NoFaceResult;
      }
      var (crop, box) := found.value;
      var pre := PreprocessFace(Some(crop), inputSize);
      var c := PredictEmotion(pre, outcome);
      var smoothed, conf := SmoothPrediction(c.emotion, c.confidence);
      if !(interpreterLoaded || kerasLoaded) {
        SlideDegraded(old(history));
        DegradedWindowSmooths(history);
      }
      res := PredictionResult(smoothed, conf, c.probabilities, Some(box), true);
    }
  }
}
