/**
 * Model of the sentence strip of the AAC (picture communication) screen in
 * main.py: tapping a word button adds its chip to the strip and says the
 * word; the strip can be spoken as one sentence or cleared.
 *
 * The speech engine is reduced to the list of texts it has been asked to
 * say, in order.
 */
module Aac {
  import opened Seqs

  /** A word button: the caption on its chip and the text the engine says. */
  datatype Word = Word(caption: string, speech: string)

  /** The speech texts of the words, in order. */
  function SpeechTexts(ws: seq<Word>): seq<string>
  {
    seq(|ws|, k requires 0 <= k < |ws| => ws[k].speech)
  }

  /** The chip labels of the words, in order. */
  function Labels(ws: seq<Word>): seq<string>
  {
    seq(|ws|, k requires 0 <= k < |ws| => ws[k].caption)
  }

  /**
   * One more word at the end of the sentence is one more chip and one more
   * text at the end, and the words before keep theirs.
   */
  lemma WordAppended(ws: seq<Word>, w: Word)
    ensures Labels(ws + [w]) == Labels(ws) + [w.caption]
    ensures SpeechTexts(ws + [w]) == SpeechTexts(ws) + [w.speech]
  {
    assert Labels(ws + [w])[..|ws|] == Labels(ws);
    assert SpeechTexts(ws + [w])[..|ws|] == SpeechTexts(ws);
  }

  /** The position of the last `c` in `s`, if any. */
  function LastIndex(s: string, c: char): (r: Option<nat>)
    ensures r.Some? ==> r.value < |s| && s[r.value] == c
    ensures r.Some? ==> forall i :: r.value < i < |s| ==> s[i] != c
    ensures r.None? <==> c !in s
  {
    if s == [] then None
    else if s[|s| - 1] == c then Some(|s| - 1)
    else LastIndex(s[..|s| - 1], c)
  }

  /** Python's `s.split(" ")`. */
  function Split(s: string): (ws: seq<string>)
    ensures |ws| > 0
    decreases |s|
  {
    match LastIndex(s, ' ')
    case None => [s]
    case Some(i) => Split(s[..i]) + [s[i + 1..]]
  }

  /** Joining words that hold no space and splitting the result gives back the words. */
  lemma {:induction false} SplitJoin(ws: seq<string>)
    requires ws != []
    requires forall k :: 0 <= k < |ws| ==> ' ' !in ws[k]
    ensures Split(JoinSpace(ws)) == ws
  {
    if |ws| > 1 {
      var p, w := ws[..|ws| - 1], ws[|ws| - 1];
      var j := JoinSpace(p);
      var s := j + " " + w;
      assert JoinSpace(ws) == s;
      assert LastIndex(s, ' ') == Some(|j|) by {
        assert s[|j|] == ' ';
        assert forall i :: |j| < i < |s| ==> s[i] == w[i - |j| - 1];
      }
      assert s[..|j|] == j && s[|j| + 1..] == w;
      SplitJoin(p);
      assert ws == p + [w];
    }
  }

  /**
   * When no word's text holds a space, the spoken sentence falls apart at
   * its spaces into exactly the texts the word buttons say, in tap order.
   */
  lemma SentenceSaysEachWord(ws: seq<Word>)
    requires ws != []
    requires forall k :: 0 <= k < |ws| ==> ' ' !in ws[k].speech
    ensures Split(JoinSpace(SpeechTexts(ws))) == SpeechTexts(ws)
    ensures |Split(JoinSpace(SpeechTexts(ws)))| == |ws|
  {
    SplitJoin(SpeechTexts(ws));
  }

  /** The joined sentence is the texts with one space between neighbours. */
  lemma {:induction false} JoinSpaceLength(ws: seq<string>)
    requires ws != []
    ensures |JoinSpace(ws)| == TotalLength(ws) + |ws| - 1
  {
    if |ws| > 1 {
      JoinSpaceLength(ws[..|ws| - 1]);
    }
  }

  /**
   * Word `k` of a joined sentence starts after the earlier words and one
   * space per earlier word, and is followed by a space unless it is the last.
   */
  lemma {:induction false} JoinSpaceLayout(ws: seq<string>, k: nat)
    requires k < |ws|
    ensures var o := TotalLength(ws[..k]) + k;
      o + |ws[k]| <= |JoinSpace(ws)| && JoinSpace(ws)[o..o + |ws[k]|] == ws[k] &&
      (k + 1 < |ws| ==> o + |ws[k]| < |JoinSpace(ws)| && JoinSpace(ws)[o + |ws[k]|] == ' ')
  {
    if |ws| > 1 {
      var p, w := ws[..|ws| - 1], ws[|ws| - 1];
      var j := JoinSpace(p);
      assert JoinSpace(ws) == j + " " + w;
      JoinSpaceLength(p);
      if k == |ws| - 1 {
        assert ws[..k] == p;
      } else {
        JoinSpaceLayout(p, k);
        assert ws[..k] == p[..k];
        if k + 1 == |p| {
          assert p[..k] == p[..|p| - 1];
        }
      }
    }
  }

  /**
   * Whatever the texts hold, the spoken sentence carries each tapped word's
   * text at its place, a space after every word but the last.
   */
  lemma SpokenWordsInPlace(ws: seq<Word>, k: nat)
    requires k < |ws|
    ensures var t := SpeechTexts(ws);
      var o := TotalLength(t[..k]) + k;
      o + |ws[k].speech| <= |JoinSpace(t)| && JoinSpace(t)[o..o + |ws[k].speech|] == ws[k].speech &&
      (k + 1 < |ws| ==> o + |ws[k].speech| < |JoinSpace(t)| && JoinSpace(t)[o + |ws[k].speech|] == ' ')
  {
    JoinSpaceLayout(SpeechTexts(ws), k);
  }

  /** The summed lengths of the texts. */
  function TotalLength(ws: seq<string>): nat
  {
    if ws == [] then 0 else TotalLength(ws[..|ws| - 1]) + |ws[|ws| - 1]|
  }

  /** The AAC screen's sentence, the chips shown for it, and what the engine has said. */
  class SentenceStrip {
    var sentence: seq<Word>
    var chips: seq<string>
    var spoken: seq<string>

    /** The strip shows one chip per word of the sentence, in order. */
    predicate Valid()
      reads this`sentence, this`chips
    {
      chips == Labels(sentence)
    }

    constructor()
      ensures Valid() && sentence == [] && spoken == []
    {
      sentence, chips, spoken := [], [], [];
    }

    /** `add_to_sentence`: append the word, show its chip, and say the word. */
    method AddToSentence(w: Word)
      requires Valid()
      modifies this
      ensures Valid()
      ensures sentence == old(sentence) + [w] && spoken == old(spoken) + [w.speech]
    {
      WordAppended(sentence, w);
      sentence := sentence + [w];
      chips := chips + [w.caption];
      spoken := spoken + [w.speech];
    }

    /** `speak_sentence`: an empty sentence says nothing; otherwise the words' texts joined by spaces. */
    method SpeakSentence()
      requires Valid()
      modifies this`spoken
      ensures Valid()
      ensures old(sentence) == [] ==> spoken == old(spoken)
      ensures old(sentence) != [] ==> spoken == old(spoken) + [JoinSpace(SpeechTexts(sentence))]
    {
      if sentence == [] {
        return;
      }
      spoken := spoken + [JoinSpace(SpeechTexts(sentence))];
    }

    /** `clear_sentence`: no words and no chips; nothing is said. */
    method ClearSentence()
      modifies this`sentence, this`chips
      ensures Valid() && sentence == [] && chips == []
    {
      sentence, chips := [], [];
    }
  }
}
