/**
 * Model of games/memory_match.py: a board of face-down tiles laid out in
 * pairs, two tiles turned per attempt, matched pairs staying revealed, and a
 * hint after three misses in a row.
 *
 * A tile is known by its index on the board and shows one shape name (the
 * shape's colour is drawing data). The two shuffles are inputs. Each Kivy
 * timer callback is an explicit transition that may run only while the game
 * has it scheduled (`pending`).
 */
module MemoryMatch {
  import opened Seqs

  /** The shape names of the shape table, in table order. */
  const Shapes: seq<string> :=
    ["circle", "square", "triangle", "diamond", "star", "cross", "ring", "hexagon"]

  /** The timer callback the game has scheduled, if any. */
  datatype Pending = NoTimer | PreviewEnd | PairCheck | FlipBack

  lemma ShapesDistinct()
    ensures Distinct(Shapes)
  {
  }

  /** Columns and rows of the grid for a level: 3x2, 4x3, otherwise 4x4. */
  function Grid(level: int): (g: (nat, nat))
    ensures level == 1 ==> g == (3, 2)
    ensures level == 2 ==> g == (4, 3)
    ensures level != 1 && level != 2 ==> g == (4, 4)
  {
    if level == 1 then (3, 2) else if level == 2 then (4, 3) else (4, 4)
  }

  /** `total // 2`: the number of pairs on the board. */
  function Pairs(level: int): (p: nat)
    ensures 3 <= p <= |Shapes|
  {
    Grid(level).0 * Grid(level).1 / 2
  }

  /** The progress label: a filled star per match, an empty star per pair still to find. */
  function ProgressText(matches: nat, pairs: nat): string
  {
    "Progress: " + Repeat("★ ", matches) + Repeat("☆ ", pairs - matches)
  }

  lemma ProgressStars(matches: nat, pairs: nat)
    requires matches <= pairs
    ensures Count(ProgressText(matches, pairs), '★') == matches
    ensures Count(ProgressText(matches, pairs), '☆') == pairs - matches
    ensures |ProgressText(matches, pairs)| == |"Progress: "| + 2 * pairs
  {
    var empty := pairs - matches;
    assert matches + empty == pairs;
    StarCounts();
    SymbolCount(matches, empty, '★');
    assert matches * 1 == matches && empty * 0 == 0;
    SymbolCount(matches, empty, '☆');
    assert matches * 0 == 0 && empty * 1 == empty;
    RepeatLength("★ ", matches);
    RepeatLength("☆ ", empty);
  }

  lemma StarCounts()
    ensures Count("★ ", '★') == 1 && Count("☆ ", '★') == 0 && Count("Progress: ", '★') == 0
    ensures Count("★ ", '☆') == 0 && Count("☆ ", '☆') == 1 && Count("Progress: ", '☆') == 0
  {
    assert "★ "[..1] == "★" && "☆ "[..1] == "☆";
    assert "★"[..0] == [] && "☆"[..0] == [];
    assert '★' !in "Progress: " && '☆' !in "Progress: ";
  }

  lemma SymbolCount(full: nat, empty: nat, x: char)
    ensures Count(ProgressText(full, full + empty), x) ==
      Count("Progress: ", x) + full * Count("★ ", x) + empty * Count("☆ ", x)
  {
    var head, f, e := "Progress: ", Repeat("★ ", full), Repeat("☆ ", empty);
    assert ProgressText(full, full + empty) == head + f + e;
    CountRepeat("★ ", full, x);
    CountRepeat("☆ ", empty, x);
    CountAppend(head, f, x);
    CountAppend(head + f, e, x);
  }

  // ------------------------------------------------------------ the board

  /** Every shape on the board occurs on exactly two tiles. */
  predicate PairedDeck(tiles: seq<string>)
  {
    forall i :: 0 <= i < |tiles| ==> Count(tiles, tiles[i]) == 2
  }

  /** The two tiles of a shape are face up for good together or not at all. */
  predicate Together(tiles: seq<string>, revealed: seq<bool>)
    requires |revealed| == |tiles|
  {
    forall i, j :: 0 <= i < |tiles| && 0 <= j < |tiles| && tiles[i] == tiles[j] ==> revealed[i] == revealed[j]
  }

  /** The board facts every move keeps. */
  predicate Board(tiles: seq<string>, revealed: seq<bool>, matches: nat, pairs: nat)
  {
    |tiles| == 2 * pairs && |revealed| == |tiles| &&
    PairedDeck(tiles) && Together(tiles, revealed) &&
    Count(revealed, true) == 2 * matches
  }

  /** On a consistent board, all pairs are found exactly when every tile is face up. */
  lemma WonAllRevealed(tiles: seq<string>, revealed: seq<bool>, matches: nat, pairs: nat)
    requires Board(tiles, revealed, matches, pairs)
    ensures matches >= pairs <==> forall i :: 0 <= i < |revealed| ==> revealed[i]
  {
    CountBools(revealed);
    if forall i :: 0 <= i < |revealed| ==> revealed[i] {
      assert false !in revealed;
    }
  }

  /** Third occurrences do not exist on a paired deck. */
  lemma OnlyTwo(tiles: seq<string>, a: nat, b: nat, c: nat)
    requires PairedDeck(tiles)
    requires a < |tiles| && b < |tiles| && c < |tiles| && a != b
    requires tiles[a] == tiles[b] == tiles[c]
    ensures c == a || c == b
  {
    if c != a && c != b {
      CountPositions(tiles, tiles[a], {a, b, c});
      assert false;
    }
  }

  /** Revealing the two tiles of one shape keeps the board facts with one more match. */
  lemma RevealPair(tiles: seq<string>, revealed: seq<bool>, matches: nat, pairs: nat, a: nat, b: nat)
    requires Board(tiles, revealed, matches, pairs)
    requires a < |tiles| && b < |tiles| && a != b && tiles[a] == tiles[b]
    requires !revealed[a] && !revealed[b]
    ensures Board(tiles, revealed[a := true][b := true], matches + 1, pairs)
  {
    var r := revealed[a := true][b := true];
    forall i, j | 0 <= i < |tiles| && 0 <= j < |tiles| && tiles[i] == tiles[j]
      ensures r[i] == r[j]
    {
      if i == a || i == b || j == a || j == b {
        if i == a || i == b {
          OnlyTwo(tiles, a, b, j);
        } else {
          OnlyTwo(tiles, a, b, i);
        }
      }
    }
    CountUpdate(revealed, a, true);
    CountUpdate(revealed[a := true], b, true);
  }

  /** Revealed tiles never outnumber the board, so matches never exceed pairs. */
  lemma MatchesBounded(tiles: seq<string>, revealed: seq<bool>, matches: nat, pairs: nat)
    requires Board(tiles, revealed, matches, pairs)
    ensures matches <= pairs
    ensures matches == pairs <==> forall i :: 0 <= i < |revealed| ==> revealed[i]
  {
    CountBools(revealed);
    if matches == pairs {
      assert false !in revealed;
    }
    if forall i :: 0 <= i < |revealed| ==> revealed[i] {
      assert false !in revealed;
    }
  }

  /** `[t for t in all_tiles if not t.revealed]`, as tile indices in board order. */
  function Unrevealed(revealed: seq<bool>): (u: seq<nat>)
    ensures forall k :: 0 <= k < |u| ==> u[k] < |revealed| && !revealed[u[k]]
    ensures forall i :: 0 <= i < |revealed| && !revealed[i] ==> i in u
    ensures forall k, l :: 0 <= k < l < |u| ==> u[k] < u[l]
  {
    if revealed == [] then []
    else
      var n := |revealed| - 1;
      Unrevealed(revealed[..n]) + if revealed[n] then [] else [n]
  }

  /** One listed index per face-down tile. */
  lemma {:induction false} UnrevealedCount(revealed: seq<bool>)
    ensures |Unrevealed(revealed)| == Count(revealed, false)
  {
    if revealed != [] {
      UnrevealedCount(revealed[..|revealed| - 1]);
    }
  }

  /** `[t for t in ids if t.shape_name == shape]`. */
  function WithShape(tiles: seq<string>, ids: seq<nat>, shape: string): (r: seq<nat>)
    requires forall k :: 0 <= k < |ids| ==> ids[k] < |tiles|
    ensures forall k :: 0 <= k < |r| ==> r[k] in ids && tiles[r[k]] == shape
    ensures forall i :: i in ids && tiles[i] == shape ==> i in r
    ensures |ids| > 0 && tiles[ids[0]] == shape ==> |r| > 0 && r[0] == ids[0]
    ensures (forall k, l :: 0 <= k < l < |ids| ==> ids[k] < ids[l]) ==>
      forall k, l :: 0 <= k < l < |r| ==> r[k] < r[l]
  {
    if ids == [] then []
    else (if tiles[ids[0]] == shape then [ids[0]] else []) + WithShape(tiles, ids[1..], shape)
  }

  /**
   * The hinted tiles: the first two unrevealed tiles showing the shape of the
   * first unrevealed tile; none when fewer than two tiles are unrevealed.
   */
  function HintPair(tiles: seq<string>, revealed: seq<bool>): seq<nat>
    requires |revealed| == |tiles|
  {
    var u := Unrevealed(revealed);
    if |u| < 2 then []
    else
      var w := WithShape(tiles, u, tiles[u[0]]);
      if |w| <= 2 then w else w[..2]
  }

  /**
   * While pairs remain, the hint is a real unrevealed pair led by the first
   * unrevealed tile on the board.
   */
  lemma HintIsAPair(tiles: seq<string>, revealed: seq<bool>, matches: nat, pairs: nat)
    requires Board(tiles, revealed, matches, pairs) && matches < pairs
    ensures var h := HintPair(tiles, revealed);
      |h| == 2 && h[0] != h[1] && h[0] < |tiles| && h[1] < |tiles| &&
      tiles[h[0]] == tiles[h[1]] && !revealed[h[0]] && !revealed[h[1]] &&
      forall i :: 0 <= i < h[0] ==> revealed[i]
  {
    var u := Unrevealed(revealed);
    var a, b := HiddenPair(tiles, revealed, matches, pairs);
    FirstUnrevealed(revealed);
    var w := WithShape(tiles, u, tiles[a]);
    assert a in w && b in w;
    var k :| 0 <= k < |w| && w[k] == b;
    assert k != 0;
    var h := w[..2];
    assert |u| >= 2 && |w| >= 2;
    if |w| == 2 {
      assert w == h;
    }
    assert HintPair(tiles, revealed) == h;
    assert h[0] == a && h[1] == w[1] && w[1] in u;
  }

  /** The first hidden tile and its partner, which is hidden too. */
  lemma HiddenPair(tiles: seq<string>, revealed: seq<bool>, matches: nat, pairs: nat) returns (a: nat, b: nat)
    requires Board(tiles, revealed, matches, pairs) && matches < pairs
    ensures var u := Unrevealed(revealed);
      |u| >= 2 && a == u[0] && b in u && a != b && tiles[a] == tiles[b]
  {
    var u := TwoHidden(tiles, revealed, matches, pairs);
    a := u[0];
    b := OtherOccurrence(tiles, tiles[a], a);
    assert revealed[b] == revealed[a];
    assert b in u;
  }

  /** While pairs remain, at least two tiles are face down. */
  lemma TwoHidden(tiles: seq<string>, revealed: seq<bool>, matches: nat, pairs: nat) returns (u: seq<nat>)
    requires Board(tiles, revealed, matches, pairs) && matches < pairs
    ensures u == Unrevealed(revealed) && |u| >= 2
  {
    u := Unrevealed(revealed);
    CountBools(revealed);
    UnrevealedCount(revealed);
  }

  /** Every tile before the first listed face-down tile is face up. */
  lemma {:induction false} FirstUnrevealed(revealed: seq<bool>)
    ensures var u := Unrevealed(revealed);
      |u| > 0 ==> forall i :: 0 <= i < u[0] ==> revealed[i]
  {
    if revealed != [] {
      var n := |revealed| - 1;
      FirstUnrevealed(revealed[..n]);
    }
  }

  // ------------------------------------------------------------- the game

  class MemoryMatchGame {
    var level: int
    var cols: nat
    var rows: nat
    var numPairs: nat
    /** `_all_tiles`, by shape name. */
    var tiles: seq<string>
    /** `tile.revealed` for each tile: matched and staying face up. */
    var revealed: seq<bool>
    /** `_tiles_up`: the tiles turned in the current attempt, in press order. */
    var tilesUp: seq<nat>
    var locked: bool
    var matches: nat
    var misses: nat
    /** The tiles drawn with the gold hint border. */
    var hinted: seq<nat>
    /** The progress label's text. */
    var progress: string
    var pending: Pending

    /** The board facts, which only a match changes. */
    ghost predicate BoardOk()
      reads this`tiles, this`revealed, this`matches, this`numPairs
    {
      Board(tiles, revealed, matches, numPairs)
    }

    /** The turned tiles agree with the lock and with the scheduled callback. */
    ghost predicate TurnOk()
      reads this`tiles, this`revealed, this`tilesUp, this`locked, this`pending
    {
      |revealed| == |tiles| && |tilesUp| <= 2 &&
      (forall k :: 0 <= k < |tilesUp| ==> tilesUp[k] < |tiles| && !revealed[tilesUp[k]]) &&
      (|tilesUp| == 2 ==> tilesUp[0] != tilesUp[1]) &&
      (pending == PreviewEnd ==> tilesUp == [] && locked) &&
      (pending == PairCheck ==> |tilesUp| == 2 && locked) &&
      (pending == FlipBack ==> |tilesUp| == 2 && locked && tiles[tilesUp[0]] != tiles[tilesUp[1]]) &&
      (pending == NoTimer ==> |tilesUp| < 2 && !locked)
    }

    ghost predicate Valid()
      reads this
    {
      BoardOk() && TurnOk()
    }

    /** `__init__`: level 1, then a new game. */
    constructor (shuffledShapes: seq<string>, deck: seq<string>)
      requires multiset(shuffledShapes) == multiset(Shapes)
      requires multiset(deck) == multiset(shuffledShapes[..Pairs(1)] + shuffledShapes[..Pairs(1)])
      ensures Valid() && level == 1
      ensures (cols, rows) == Grid(level) && numPairs == Pairs(level) && progress == ProgressText(0, numPairs)
      ensures tiles == deck && |tiles| == 2 * Pairs(level)
      ensures forall i :: 0 <= i < |tiles| ==> !revealed[i]
      ensures tilesUp == [] && hinted == [] && locked && matches == 0 && misses == 0
      ensures pending == PreviewEnd
    {
      level := 1;
      cols, rows := 3, 2;
      tiles, revealed, tilesUp, hinted := [], [], [], [];
      numPairs, matches, misses := 0, 0, 0;
      locked, progress, pending := false, "", NoTimer;
      new;
      NewGame(shuffledShapes, deck);
    }

    /** `_set_level`: switch level and start over. */
    method SetLevel(lvl: int, shuffledShapes: seq<string>, deck: seq<string>)
      requires multiset(shuffledShapes) == multiset(Shapes)
      requires multiset(deck) == multiset(shuffledShapes[..Pairs(lvl)] + shuffledShapes[..Pairs(lvl)])
      modifies this
      ensures Valid() && level == lvl
      ensures (cols, rows) == Grid(level) && numPairs == Pairs(level) && progress == ProgressText(0, numPairs)
      ensures tiles == deck && |tiles| == 2 * Pairs(level)
      ensures forall i :: 0 <= i < |tiles| ==> !revealed[i]
      ensures tilesUp == [] && hinted == [] && locked && matches == 0 && misses == 0
      ensures pending == PreviewEnd
    {
      level := lvl;
      NewGame(shuffledShapes, deck);
    }

    /**
     * `_new_game`: size the grid for the level, deal the first `pairs` shapes
     * of the shuffled table twice each in the shuffled deck order, and lock
     * the board for the preview.
     */
    method NewGame(shuffledShapes: seq<string>, deck: seq<string>)
      requires multiset(shuffledShapes) == multiset(Shapes)
      requires multiset(deck) == multiset(shuffledShapes[..Pairs(level)] + shuffledShapes[..Pairs(level)])
      modifies this
      ensures Valid() && level == old(level)
      ensures (cols, rows) == Grid(level) && numPairs == Pairs(level) && progress == ProgressText(0, numPairs)
      ensures tiles == deck && |tiles| == 2 * Pairs(level)
      ensures forall i :: 0 <= i < |tiles| ==> !revealed[i]
      ensures tilesUp == [] && hinted == [] && locked && matches == 0 && misses == 0
      ensures pending == PreviewEnd
    {
      Deal(shuffledShapes, deck);
      StartPreview();
    }

    /** The rest of `_new_game`: no turned tiles, no hint, an empty progress row, and the preview lock. */
    method StartPreview()
      requires |revealed| == |tiles|
      modifies this`tilesUp, this`locked, this`misses, this`hinted, this`progress, this`pending
      ensures TurnOk() && progress == ProgressText(0, numPairs)
      ensures tilesUp == [] && hinted == [] && locked && misses == 0 && pending == PreviewEnd
    {
      tilesUp, locked, misses, hinted := [], true, 0, [];
      progress := ProgressText(0, numPairs);
      pending := PreviewEnd;
    }

    /** The dealing part of `_new_game`: grid size, pair count, and the face-down tiles. */
    method Deal(shuffledShapes: seq<string>, deck: seq<string>)
      requires multiset(shuffledShapes) == multiset(Shapes)
      requires multiset(deck) == multiset(shuffledShapes[..Pairs(level)] + shuffledShapes[..Pairs(level)])
      modifies this`cols, this`rows, this`numPairs, this`tiles, this`revealed, this`matches
      ensures BoardOk() && matches == 0
      ensures (cols, rows) == Grid(level) && numPairs == Pairs(level)
      ensures tiles == deck && forall i :: 0 <= i < |revealed| ==> !revealed[i]
    {
      var g := Grid(level);
      var pairs := g.0 * g.1 / 2;
      var laid, up := LayTiles(deck);
      FreshBoard(shuffledShapes, laid, up, pairs);
      cols, rows, numPairs, matches := g.0, g.1, pairs, 0;
      tiles, revealed := laid, up;
    }

    /** `_end_preview`: the preview is over and the board takes presses. */
    method EndPreview()
      requires Valid() && pending == PreviewEnd
      modifies this`locked, this`pending
      ensures Valid() && !locked && pending == NoTimer
    {
      locked := false;
      pending := NoTimer;
    }

    /**
     * `_on_tile_press`: ignored while locked or for a matched or already
     * turned tile; otherwise the tile turns, any hint is cleared, and the
     * second turned tile locks the board until the pair is checked.
     */
    method OnTilePress(t: nat)
      requires Valid() && t < |tiles|
      modifies this`tilesUp, this`hinted, this`locked, this`pending
      ensures Valid()
      ensures old(locked) || revealed[t] || t in old(tilesUp) ==>
        tilesUp == old(tilesUp) && hinted == old(hinted) && locked == old(locked) && pending == old(pending)
      ensures !(old(locked) || revealed[t] || t in old(tilesUp)) ==>
        tilesUp == old(tilesUp) + [t] && hinted == [] &&
        locked == (|tilesUp| == 2) && pending == (if |tilesUp| == 2 then PairCheck else NoTimer)
    {
      if locked {
        return;
      }
      if revealed[t] || t in tilesUp {
        return;
      }
      tilesUp := tilesUp + [t];
      hinted := [];
      if |tilesUp| == 2 {
        locked := true;
        pending := PairCheck;
      }
    }

    /**
     * `_check_pair`: equal shapes are a match; otherwise the miss streak
     * grows and the flip-back is scheduled.
     */
    method CheckPair()
      requires Valid() && pending == PairCheck
      modifies this`revealed, this`matches, this`misses, this`tilesUp, this`locked, this`progress, this`pending
      ensures Valid()
      ensures var t1, t2 := old(tilesUp)[0], old(tilesUp)[1];
        if tiles[t1] == tiles[t2] then
          revealed == old(revealed)[t1 := true][t2 := true] && matches == old(matches) + 1 &&
          misses == 0 && tilesUp == [] && !locked && pending == NoTimer &&
          progress == ProgressText(matches, numPairs)
        else
          revealed == old(revealed) && matches == old(matches) && misses == old(misses) + 1 &&
          tilesUp == old(tilesUp) && locked && pending == FlipBack && progress == old(progress)
    {
      var t1, t2 := tilesUp[0], tilesUp[1];
      if tiles[t1] == tiles[t2] {
        HandleMatch(t1, t2);
      } else {
        misses := misses + 1;
        pending := FlipBack;
      }
    }

    /** The game is won once every pair is found. */
    predicate Won()
      reads this
    {
      matches >= numPairs
    }

    /** `_handle_match`: both tiles stay revealed and the attempt ends. */
    method HandleMatch(t1: nat, t2: nat)
      requires Valid() && pending == PairCheck && tilesUp == [t1, t2] && tiles[t1] == tiles[t2]
      modifies this`revealed, this`matches, this`misses, this`tilesUp, this`locked, this`progress, this`pending
      ensures Valid()
      ensures revealed == old(revealed)[t1 := true][t2 := true] && matches == old(matches) + 1
      ensures misses == 0 && tilesUp == [] && !locked && pending == NoTimer
      ensures progress == ProgressText(matches, numPairs)
      ensures Won() <==> forall i :: 0 <= i < |revealed| ==> revealed[i]
    {
      RevealPair(tiles, revealed, matches, numPairs, t1, t2);
      MatchesBounded(tiles, revealed[t1 := true][t2 := true], matches + 1, numPairs);
      misses := 0;
      revealed := revealed[t1 := true][t2 := true];
      matches := matches + 1;
      tilesUp := [];
      locked := false;
      progress := ProgressText(matches, numPairs);
      pending := NoTimer;
    }

    /**
     * `_flip_back_and_hint`: turn the missed pair back, unlock, and after
     * three misses in a row point at a pair that is still hidden.
     */
    method FlipBackAndHint()
      requires Valid() && pending == FlipBack
      modifies this`tilesUp, this`locked, this`hinted, this`pending
      ensures Valid()
      ensures tilesUp == [] && !locked && pending == NoTimer
      ensures misses >= 3 && matches < numPairs ==> hinted == HintPair(tiles, revealed)
      ensures !(misses >= 3 && matches < numPairs) ==> hinted == old(hinted)
    {
      tilesUp := [];
      locked := false;
      pending := NoTimer;
      if misses >= 3 && matches < numPairs {
        hinted := HintPair(tiles, revealed);
      }
    }
  }

  /** The shuffled table's first `pairs` names, twice each, make a paired deck of table shapes. */
  lemma DealtInPairs(shuffledShapes: seq<string>, deck: seq<string>, pairs: nat)
    requires multiset(shuffledShapes) == multiset(Shapes) && pairs <= |Shapes|
    requires multiset(deck) == multiset(shuffledShapes[..pairs] + shuffledShapes[..pairs])
    ensures |deck| == 2 * pairs && PairedDeck(deck)
    ensures forall i :: 0 <= i < |deck| ==> deck[i] in Shapes
  {
    var chosen := shuffledShapes[..pairs];
    assert |shuffledShapes| == |Shapes| by {
      assert |multiset(shuffledShapes)| == |multiset(Shapes)|;
    }
    assert |deck| == 2 * pairs by {
      assert |multiset(deck)| == |multiset(chosen + chosen)|;
    }
    ShapesDistinct();
    DistinctPermutation(Shapes, shuffledShapes);
    forall i | 0 <= i < |deck| ensures Count(deck, deck[i]) == 2 && deck[i] in Shapes {
      var x := deck[i];
      assert x in multiset(deck);
      assert x in chosen + chosen;
      assert x in chosen;
      assert x in multiset(shuffledShapes);
      assert Distinct(chosen);
      DistinctCountOne(chosen, x);
      CountAppend(chosen, chosen, x);
      CountMultiset(deck, x);
      CountMultiset(chosen + chosen, x);
    }
  }

  /** The tile-building loop of `_new_game`: one face-down tile per deck entry, in deck order. */
  method LayTiles(deck: seq<string>) returns (laid: seq<string>, up: seq<bool>)
    ensures laid == deck && |up| == |deck|
    ensures forall i :: 0 <= i < |up| ==> !up[i]
  {
    laid, up := [], [];
    var k := 0;
    while k < |deck|
      invariant 0 <= k <= |deck|
      invariant laid == deck[..k] && |up| == k
      invariant forall i :: 0 <= i < k ==> !up[i]
    {
      laid := laid + [deck[k]];
      up := up + [false];
      k := k + 1;
    }
  }

  /** A freshly dealt board: paired, nothing revealed, no matches. */
  lemma FreshBoard(shuffledShapes: seq<string>, deck: seq<string>, up: seq<bool>, pairs: nat)
    requires multiset(shuffledShapes) == multiset(Shapes) && pairs <= |Shapes|
    requires multiset(deck) == multiset(shuffledShapes[..pairs] + shuffledShapes[..pairs])
    requires |up| == |deck| && forall i :: 0 <= i < |up| ==> !up[i]
    ensures Board(deck, up, 0, pairs)
  {
    DealtInPairs(shuffledShapes, deck, pairs);
    assert true !in up;
  }
}
