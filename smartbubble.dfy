/**
 * Model of games/smartbubble.py, the bubble-pop quiz: a stage is five
 * questions, each shown as four bubbles in four fixed places; popping the
 * right bubble scores ten points, locks the bubbles and moves on, popping a
 * wrong one only says to try again.
 *
 * The two shuffles of `load_question` (of the options and of the places) are
 * inputs, constrained to be permutations. A bubble is known by its index in
 * the bubble list; a place by its index in the table of four positions.
 * Colours, fonts, animations and the timers that return to the menu are not
 * modelled.
 */
module SmartBubble {
  import opened Seqs

  datatype BubbleQuestion = BubbleQuestion(instruction: string, correct: string, options: seq<string>)

  datatype Stage = Stage(title: string, questions: seq<BubbleQuestion>)

  /** The stage table, by stage id. */
  const Stages: map<string, Stage> := map[
    "stage1" := Stage("Symbol Identification", [
      BubbleQuestion("Pop the RED ball", "🔴", ["🔴", "🔵", "🟢", "🟡"]),
      BubbleQuestion("Pop the TRIANGLE", "▲", ["▲", "●", "■", "▬"]),
      BubbleQuestion("Pop the BIG shape", "<big>●", ["<big>●", "●", "■", "▲"]),
      BubbleQuestion("Pop the GREEN shape", "🟢", ["🟢", "🟦", "🔺", "🟣"]),
      BubbleQuestion("Pop the STAR", "⭐", ["⭐", "■", "●", "▲"])
    ]),
    "stage2" := Stage("Letter Orientation", [
      BubbleQuestion("Pop the letter p", "p", ["p", "q", "b", "d"]),
      BubbleQuestion("Pop the letter b", "b", ["b", "d", "p", "q"]),
      BubbleQuestion("Pop the letter d", "d", ["d", "b", "q", "p"]),
      BubbleQuestion("Pop number 6", "6", ["6", "9", "8", "0"]),
      BubbleQuestion("Pop number 9", "9", ["9", "6", "8", "0"])
    ]),
    "stage3" := Stage("Emotion Recognition", [
      BubbleQuestion("Pop the HAPPY face", "😊", ["😊", "😡", "😢", "😨"]),
      BubbleQuestion("Pop the ANGRY face", "😡", ["😡", "😊", "😢", "😲"]),
      BubbleQuestion("Pop the SAD face", "😢", ["😢", "😊", "😡", "😨"]),
      BubbleQuestion("Pop the SURPRISED face", "😲", ["😲", "😊", "😡", "😢"]),
      BubbleQuestion("Pop the SCARED face", "😨", ["😨", "😊", "😡", "😢"])
    ])
  ]

  /** Questions played per stage. */
  const PerStage: nat := 5
  /** Points for a right pop. */
  const Points: nat := 10
  /** Number of preset bubble places. */
  const Places: nat := 4

  /** A question is well formed when it has four distinct options, the answer among them. */
  predicate WellFormed(q: BubbleQuestion)
  {
    |q.options| == Places && Distinct(q.options) && q.correct in q.options
  }

  /** The questions of a stage in the table. */
  function QuestionsOf(id: string): seq<BubbleQuestion>
    requires id in Stages
  {
    Stages[id].questions
  }

  lemma Stage1WellFormed()
    ensures |QuestionsOf("stage1")| == PerStage
    ensures forall k :: 0 <= k < PerStage ==> WellFormed(QuestionsOf("stage1")[k])
  {
  }

  lemma Stage2WellFormed()
    ensures |QuestionsOf("stage2")| == PerStage
    ensures forall k :: 0 <= k < PerStage ==> WellFormed(QuestionsOf("stage2")[k])
  {
  }

  lemma Stage3WellFormed()
    ensures |QuestionsOf("stage3")| == PerStage
    ensures forall k :: 0 <= k < PerStage ==> WellFormed(QuestionsOf("stage3")[k])
  {
  }

  /**
   * Every stage plays five questions, and in each the answer is exactly one
   * of four options.
   */
  lemma StagesWellFormed()
    ensures Stages.Keys == {"stage1", "stage2", "stage3"}
    ensures forall id :: id in Stages ==> |QuestionsOf(id)| == PerStage
    ensures forall id, k :: id in Stages && 0 <= k < PerStage ==>
      WellFormed(QuestionsOf(id)[k]) && Count(QuestionsOf(id)[k].options, QuestionsOf(id)[k].correct) == 1
  {
    Stage1WellFormed();
    Stage2WellFormed();
    Stage3WellFormed();
    forall id, k | id in Stages && 0 <= k < PerStage
      ensures Count(QuestionsOf(id)[k].options, QuestionsOf(id)[k].correct) == 1
    {
      DistinctCountOne(QuestionsOf(id)[k].options, QuestionsOf(id)[k].correct);
    }
  }

  /** A bubble: its option text, whether it is the answer, its place, and whether it is disabled. */
  datatype Bubble = Bubble(text: string, isCorrect: bool, place: nat, disabled: bool)

  /** The bubbles of a question for the shuffled options and places. */
  function Bubbles(order: seq<string>, places: seq<nat>, correct: string): (bs: seq<Bubble>)
    requires |places| >= |order|
    ensures |bs| == |order|
  {
    seq(|order|, i requires 0 <= i < |order| => Bubble(order[i], order[i] == correct, places[i], false))
  }

  /** The bubble loop of `load_question`: one enabled bubble per shuffled option, in order. */
  method MakeBubbles(order: seq<string>, places: seq<nat>, correct: string) returns (bs: seq<Bubble>)
    requires |places| >= |order|
    ensures bs == Bubbles(order, places, correct)
  {
    bs := [];
    var i := 0;
    while i < |order|
      invariant 0 <= i <= |order|
      invariant bs == Bubbles(order[..i], places, correct)
    {
      bs := bs + [Bubble(order[i], order[i] == correct, places[i], false)];
      i := i + 1;
    }
    assert order[..i] == order;
  }

  /** The indices of the correct bubbles. */
  function CorrectOnes(bs: seq<Bubble>): set<nat>
  {
    set k | 0 <= k < |bs| && bs[k].isCorrect
  }

  /**
   * For a well-formed question and permutations of its options and of the
   * four places, there is exactly one correct bubble, and no two bubbles
   * share a place.
   */
  lemma OneCorrectBubble(q: BubbleQuestion, order: seq<string>, places: seq<nat>)
    requires WellFormed(q)
    requires multiset(order) == multiset(q.options)
    requires multiset(places) == multiset{0, 1, 2, 3}
    ensures |order| == Places && |places| == Places
    ensures var bs := Bubbles(order, places, q.correct);
      |bs| == Places && |CorrectOnes(bs)| == 1
    ensures var bs := Bubbles(order, places, q.correct);
      forall i, j :: 0 <= i < j < |bs| ==> bs[i].place != bs[j].place
  {
    assert |order| == |multiset(order)| == |multiset(q.options)| == Places;
    assert |places| == |multiset(places)| == Places;
    DistinctPermutation(q.options, order);
    assert q.correct in multiset(order);
    var i :| 0 <= i < |order| && order[i] == q.correct;
    var bs := Bubbles(order, places, q.correct);
    assert CorrectOnes(bs) == {i};
    assert Distinct([0, 1, 2, 3]);
    assert multiset([0, 1, 2, 3]) == multiset{0, 1, 2, 3};
    DistinctPermutation([0, 1, 2, 3], places);
  }

  /** The bubbles with every one disabled: none of them takes a tap any more. */
  function AllDisabled(bs: seq<Bubble>): (ds: seq<Bubble>)
    ensures |ds| == |bs| && forall i :: 0 <= i < |ds| ==> ds[i].disabled
  {
    seq(|bs|, i requires 0 <= i < |bs| => bs[i].(disabled := true))
  }

  /**
   * Disabling leaves the question on screen as it was: the same right
   * bubble, the same texts, no two bubbles on one place if there were none
   * before; and disabling twice is disabling once.
   */
  lemma DisableKeepsBubbles(bs: seq<Bubble>)
    ensures CorrectOnes(AllDisabled(bs)) == CorrectOnes(bs)
    ensures forall i :: 0 <= i < |bs| ==> AllDisabled(bs)[i].text == bs[i].text
    ensures (forall i, j :: 0 <= i < j < |bs| ==> bs[i].place != bs[j].place) ==>
      forall i, j :: 0 <= i < j < |bs| ==> AllDisabled(bs)[i].place != AllDisabled(bs)[j].place
    ensures AllDisabled(AllDisabled(bs)) == AllDisabled(bs)
  {
  }

  /** The progress line of question `qIdx`. */
  function ProgressText(qIdx: nat): string
  {
    "Question " + Decimal(qIdx + 1) + " of 5"
  }

  /** The score line. */
  function ScoreText(score: nat): string
  {
    "Score: " + Decimal(score)
  }

  /** The progress and score lines read back as the question number and the score. */
  lemma LabelsReadBack(qIdx: nat, score: nat)
    ensures var p := ProgressText(qIdx);
      |p| > 14 && p[..9] == "Question " && p[|p| - 5..] == " of 5" &&
      DecimalValue(p[9..|p| - 5]) == qIdx + 1
    ensures var s := ScoreText(score);
      |s| > 7 && s[..7] == "Score: " && DecimalValue(s[7..]) == score
  {
    DecimalRoundTrip(qIdx + 1);
    DecimalRoundTrip(score);
    var d := Decimal(qIdx + 1);
    assert ProgressText(qIdx)[9..|ProgressText(qIdx)| - 5] == d;
    assert ScoreText(score)[7..] == Decimal(score);
  }

  /** The stage screen: the stage, the question index, the score, the bubbles and the labels. */
  class BubbleGame {
    var stage: Option<Stage>
    var qIdx: nat
    var score: nat
    var bubbles: seq<Bubble>
    var processing: bool
    var complete: bool
    var title: string
    var instruction: string
    var progress: string
    var scoreLine: string
    var feedback: string

    /**
     * Ten points per question answered, never more than five answered, and
     * while the bubbles can still be popped the stage is not over.
     */
    predicate Valid()
      reads this`qIdx, this`score, this`bubbles, this`processing
    {
      score == Points * qIdx && qIdx <= PerStage &&
      (bubbles != [] && !processing ==> qIdx < PerStage)
    }

    constructor()
      ensures Valid()
      ensures stage == None && qIdx == 0 && score == 0 && bubbles == [] && !processing
    {
      stage, qIdx, score, bubbles, processing, complete := None, 0, 0, [], false, false;
      title, instruction, progress, scoreLine, feedback := "", "", "", "Score: 0", "";
    }

    /** `start_game`: an unknown stage id changes nothing; a known one starts its first question. */
    method StartGame(id: string, order: seq<string>, places: seq<nat>)
      requires Valid()
      requires id in Stages ==> |places| >= |order|
      modifies this
      ensures Valid()
      ensures id !in Stages ==> (
        stage == old(stage) && qIdx == old(qIdx) && score == old(score) &&
        bubbles == old(bubbles) && processing == old(processing) && feedback == old(feedback) &&
        complete == old(complete) && title == old(title) && instruction == old(instruction) &&
        progress == old(progress) && scoreLine == old(scoreLine))
      ensures id in Stages ==> (
        stage == Some(Stages[id]) && title == "Stage: " + Stages[id].title &&
        qIdx == 0 && score == 0 && scoreLine == "Score: 0" && !processing &&
        (Stages[id].questions != [] ==>
          var q := Stages[id].questions[0];
          bubbles == Bubbles(order, places, q.correct) && instruction == q.instruction &&
          !complete && feedback == "" && progress == ProgressText(0)) &&
        (Stages[id].questions == [] ==>
          complete && bubbles == [] && instruction == "" && feedback == "Stage Complete 🎉"))
    {
      if id !in Stages {
        return;
      }
      stage := Some(Stages[id]);
      title := "Stage: " + Stages[id].title;
      qIdx, score := 0, 0;
      scoreLine := ScoreText(0);
      feedback := "";
      LoadQuestion(order, places);
    }

    /**
     * `load_question`: clear the processing flag and the feedback; past the
     * fifth question, or the stage's last, show completion; otherwise lay
     * out the question's bubbles.
     */
    method LoadQuestion(order: seq<string>, places: seq<nat>)
      requires stage.Some? && score == Points * qIdx && qIdx <= PerStage
      requires qIdx < PerStage && qIdx < |stage.value.questions| ==> |places| >= |order|
      modifies this`processing, this`feedback, this`complete, this`bubbles
      modifies this`instruction, this`progress
      ensures Valid() && !processing
      ensures qIdx >= PerStage || qIdx >= |stage.value.questions| ==> (
        complete && bubbles == [] && instruction == "" && feedback == "Stage Complete 🎉" &&
        progress == old(progress))
      ensures qIdx < PerStage && qIdx < |stage.value.questions| ==> (
        var q := stage.value.questions[qIdx];
        !complete && feedback == "" && progress == ProgressText(qIdx) &&
        instruction == q.instruction && bubbles == Bubbles(order, places, q.correct))
    {
      processing := false;
      feedback := "";
      if qIdx >= PerStage || qIdx >= |stage.value.questions| {
        ShowCompletion();
        return;
      }
      var q := stage.value.questions[qIdx];
      progress := ProgressText(qIdx);
      instruction := q.instruction;
      complete := false;
      bubbles := MakeBubbles(order, places, q.correct);
    }

    /** `show_completion`: an empty play area and the completion message. */
    method ShowCompletion()
      modifies this`bubbles, this`instruction, this`feedback, this`complete
      ensures complete && bubbles == [] && instruction == "" && feedback == "Stage Complete 🎉"
    {
      bubbles := [];
      instruction := "";
      feedback := "Stage Complete 🎉";
      complete := true;
    }

    /**
     * `on_bubble_tap`: ignored while a right answer is being processed or
     * for a disabled bubble; the right bubble scores, disables every bubble
     * and advances; a wrong one only asks to try again.
     */
    method OnBubbleTap(b: nat)
      requires Valid() && b < |bubbles|
      modifies this`processing, this`score, this`scoreLine, this`feedback, this`bubbles, this`qIdx
      ensures Valid()
      ensures old(processing) || old(bubbles[b].disabled) ==> (
        score == old(score) && qIdx == old(qIdx) && bubbles == old(bubbles) &&
        processing == old(processing) && feedback == old(feedback) && scoreLine == old(scoreLine))
      ensures !old(processing) && !old(bubbles[b].disabled) && old(bubbles[b].isCorrect) ==> (
        processing && score == old(score) + Points && qIdx == old(qIdx) + 1 &&
        scoreLine == ScoreText(score) && feedback == "Good Job! ✔️" &&
        bubbles == AllDisabled(old(bubbles)))
      ensures !old(processing) && !old(bubbles[b].disabled) && !old(bubbles[b].isCorrect) ==> (
        score == old(score) && qIdx == old(qIdx) && bubbles == old(bubbles) &&
        !processing && feedback == "Try Again" && scoreLine == old(scoreLine))
    {
      if processing || bubbles[b].disabled {
        return;
      }
      if bubbles[b].isCorrect {
        processing := true;
        score := score + Points;
        scoreLine := ScoreText(score);
        feedback := "Good Job! ✔️";
        DisableAll();
        qIdx := qIdx + 1;
      } else {
        feedback := "Try Again";
      }
    }

    /** The disabling loop of `on_bubble_tap`. */
    method DisableAll()
      modifies this`bubbles
      ensures bubbles == AllDisabled(old(bubbles))
    {
      var i := 0;
      while i < |bubbles|
        invariant 0 <= i <= |bubbles| && |bubbles| == |old(bubbles)|
        invariant forall k :: 0 <= k < i ==> bubbles[k] == old(bubbles)[k].(disabled := true)
        invariant forall k :: i <= k < |bubbles| ==> bubbles[k] == old(bubbles)[k]
      {
        bubbles := bubbles[i := bubbles[i].(disabled := true)];
        i := i + 1;
      }
    }
  }
}
