/**
 * Model of the emotion-practice screen in games/emotions.py: a target label
 * chosen on the selection screen, and a success latch that celebrates only the
 * first good match after each new target.
 *
 * The camera is reduced to two flags and an optional frame; the confetti
 * burst is counted rather than drawn.
 */
module EmotionPractice {
  import opened Seqs
  import opened EmotionAI

  /** Confidence the detected label must strictly exceed to count as shown. */
  const SuccessThreshold: real := 0.4

  /** The labels offered on the selection screen, in card order. */
  const CardEmotions: seq<string> := ["Happy", "Sad", "Angry", "Surprise", "Fear", "Neutral"]

  /** Every card names a label the classifier can produce. */
  lemma CardsAreClassifierLabels()
    ensures forall e :: e in CardEmotions ==> e in Emotions
  {
    assert CardEmotions[0] == Emotions[4] && CardEmotions[1] == Emotions[6];
    assert CardEmotions[2] == Emotions[0] && CardEmotions[3] == Emotions[7];
    assert CardEmotions[4] == Emotions[3] && CardEmotions[5] == Emotions[5];
  }

  /** A result that shows the target: a face, the target label, confidence above 0.4. */
  predicate Succeeds(r: PredictionResult, target: Option<string>)
  {
    r.faceDetected && target == Some(r.emotion) && r.confidence > SuccessThreshold
  }

  /** The feedback line written for one result. */
  function FeedbackText(r: PredictionResult, target: Option<string>): (t: string)
    ensures !r.faceDetected <==> t == "No face detected"
    ensures Succeeds(r, target) <==> |t| >= 8 && t[..8] == "Perfect!"
    ensures Succeeds(r, target) ==> t == "Perfect! You showed " + r.emotion + "!"
    ensures r.faceDetected && !Succeeds(r, target) ==> t == "Detected: " + r.emotion
  {
    if !r.faceDetected then
      var t := "No face detected";
      assert t[..8][0] != "Perfect!"[0];
      t
    else if Succeeds(r, target) then "Perfect! You showed " + target.value + "!"
    else
      var t := "Detected: " + r.emotion;
      assert t[0] != "No face detected"[0] && t[..8][0] != "Perfect!"[0];
      t
  }

  /** The latch after one result: once set it stays set. */
  function Latch(shown: bool, r: PredictionResult, target: Option<string>): (s: bool)
    ensures s <==> shown || Succeeds(r, target)
  {
    if Succeeds(r, target) then true else shown
  }

  /** The latch and the number of celebrations after a run of results for one target. */
  function Run(shown: bool, rs: seq<PredictionResult>, target: Option<string>): (bool, nat)
  {
    if rs == [] then (shown, 0)
    else
      var (s, n) := Run(shown, rs[..|rs| - 1], target);
      var r := rs[|rs| - 1];
      (Latch(s, r, target), n + if !s && Succeeds(r, target) then 1 else 0)
  }

  /**
   * After a new target, a run of results celebrates exactly once if some
   * result succeeds and never otherwise, and the latch records whether one did.
   */
  lemma {:induction false} RunCelebratesOnce(rs: seq<PredictionResult>, target: Option<string>)
    ensures Run(false, rs, target).0 <==> exists i :: 0 <= i < |rs| && Succeeds(rs[i], target)
    ensures Run(false, rs, target).1 == if Run(false, rs, target).0 then 1 else 0
  {
    if rs != [] {
      var p := rs[..|rs| - 1];
      RunCelebratesOnce(p, target);
      if exists i :: 0 <= i < |p| && Succeeds(p[i], target) {
        var i :| 0 <= i < |p| && Succeeds(p[i], target);
        assert rs[i] == p[i];
      }
      if exists i :: 0 <= i < |rs| && Succeeds(rs[i], target) {
        var i :| 0 <= i < |rs| && Succeeds(rs[i], target);
        if i < |p| {
          assert p[i] == rs[i];
        }
      }
    }
  }

  class PracticeScreen {
    /** `target_emotion`; `None` until a card is chosen. */
    var target: Option<string>
    var successShown: bool
    /** Text of `target_emotion_label`. */
    var targetLabel: string
    /** Text of `feedback_label`. */
    var feedback: string
    /** The next button is visible and enabled (opacity 1, not disabled). */
    var nextEnabled: bool
    /** Confetti bursts shown so far. */
    var celebrations: nat

    constructor ()
      ensures target == None && !successShown && !nextEnabled && celebrations == 0
      ensures targetLabel == "" && feedback == ""
    {
      target, successShown := None, false;
      targetLabel, feedback := "", "";
      nextEnabled, celebrations := false, 0;
    }

    /** `set_target_emotion`: a new target re-arms the latch. */
    method SetTargetEmotion(e: string)
      modifies this`target, this`successShown
      ensures target == Some(e) && !successShown
    {
      target := Some(e);
      successShown := false;
    }

    /** `on_enter`: show the target when one is set, and hide the next button. */
    method OnEnter()
      modifies this`targetLabel, this`nextEnabled
      ensures target.Some? && target.value != "" ==> targetLabel == "Show me: " + target.value
      ensures !(target.Some? && target.value != "") ==> targetLabel == old(targetLabel)
      ensures !nextEnabled
    {
      if target.Some? && target.value != "" {
        targetLabel := "Show me: " + target.value;
      }
      nextEnabled := false;
    }

    /**
     * `provide_feedback`: update the feedback line; the first success after a
     * target is set celebrates and enables the next button, later ones only
     * repeat the praise.
     */
    method ProvideFeedback(r: PredictionResult)
      modifies this`feedback, this`successShown, this`nextEnabled, this`celebrations
      ensures feedback == FeedbackText(r, target)
      ensures successShown == Latch(old(successShown), r, target)
      ensures !old(successShown) && Succeeds(r, target) ==>
        nextEnabled && celebrations == old(celebrations) + 1
      ensures old(successShown) || !Succeeds(r, target) ==>
        nextEnabled == old(nextEnabled) && celebrations == old(celebrations)
    {
      if !r.faceDetected {
        feedback := "No face detected";
        return;
      }
      var detected := r.emotion;
      if target == Some(detected) && r.confidence > SuccessThreshold {
        feedback := "Perfect! You showed " + target.value + "!";
        if !successShown {
          successShown := true;
          celebrations := celebrations + 1;
          nextEnabled := true;
        }
      } else {
        feedback := "Detected: " + detected;
      }
    }

    /**
     * `update_emotion`, one timer tick: nothing without a running camera or a
     * frame; otherwise one prediction, whose result is fed back.
     */
    method UpdateEmotion(cameraPresent: bool, cameraRunning: bool, frame: Option<Frame>,
                         ai: EmotionAI, detection: Option<RawBox>, outcome: InferenceOutcome)
      returns (result: Option<PredictionResult>)
      requires ai.Valid()
      modifies this`feedback, this`successShown, this`nextEnabled, this`celebrations, ai`history
      ensures ai.Valid()
      ensures result.None? <==> !cameraPresent || !cameraRunning || frame.None?
      ensures result.None? ==>
        ai.history == old(ai.history) && feedback == old(feedback) &&
        successShown == old(successShown) && nextEnabled == old(nextEnabled) &&
        celebrations == old(celebrations)
      ensures result.Some? && DetectFace(frame, detection).None? ==>
        result.value == NoFaceResult && ai.history == old(ai.history)
      ensures result.Some? && DetectFace(frame, detection).Some? ==>
        var (crop, box) := DetectFace(frame, detection).value;
        var c := ai.PredictEmotion(PreprocessFace(Some(crop), ai.inputSize), outcome);
        ai.history == Slide(old(ai.history), (c.emotion, c.confidence)) &&
        result.value == PredictionResult(Mode(ai.history), Mean(ai.history), c.probabilities, Some(box), true)
      ensures result.Some? && DetectFace(frame, detection).Some? && !(ai.interpreterLoaded || ai.kerasLoaded) ==>
        result.value.emotion == NeutralLabel && result.value.confidence == 0.0 &&
        result.value.probabilities == [] && result.value.faceDetected
      ensures result.Some? ==>
        feedback == FeedbackText(result.value, target) &&
        successShown == Latch(old(successShown), result.value, target)
      ensures result.Some? && !old(successShown) && Succeeds(result.value, target) ==>
        nextEnabled && celebrations == old(celebrations) + 1
      ensures result.Some? && (old(successShown) || !Succeeds(result.value, target)) ==>
        nextEnabled == old(nextEnabled) && celebrations == old(celebrations)
    {
      if !cameraPresent || !cameraRunning {
        return None;
      }
      if frame.None? {
        return None;
      }
      var r := ai.Predict(frame, detection, outcome);
      ProvideFeedback(r);
      result := Some(r);
    }
  }
}
