/**
 * Model of games/visual_real_life.py, the real-life skills game: blocks of
 * ten questions per level (counting, comparison, daily logic, money, safety),
 * answered by dragging items into a drop zone or by tapping an option, with
 * an anti-repetition rule on instructions, exact-change coins for the money
 * level, and a hint after three failed attempts.
 *
 * Every random draw is an input constrained to what `random` can return.
 * Widgets are reduced to task records; a task is known by its index in the
 * task list. Colours, animation and fonts are not modelled.
 */
module VisualRealLife {
  import opened Seqs

  // -------------------------------------------------------------- the data

  datatype Domain = Counting | Comparison | Daily | Money | Safety

  /** A priced shop item of the money level. */
  datatype Product = Product(name: string, icon: string, price: int)

  /** A cause-and-effect question: a scene, the right answer, four options. */
  datatype Scene = Scene(scene: string, target: string, options: seq<string>)

  const CountingIcons: seq<string> := ["🍌", "🍎", "🧸", "🍓", "⚽", "🚗", "📚"]
  const ComparisonIcons: seq<string> := ["🚗", "🍓", "🎈", "🚲", "🐶"]

  const Products: seq<Product> := [
    Product("Candy", "🍬", 10), Product("Notebook", "📘", 20), Product("Toy", "🧸", 50),
    Product("Milk", "🥛", 30), Product("Backpack", "🎒", 100)
  ]

  /** The coin table's values, in table order. */
  const CoinValues: seq<int> := [10, 20, 50, 100, 500]

  const DailyScenes: seq<Scene> := [
    Scene("🌧️", "☂️", ["☂️", "🧢", "🎒", "🏃"]),
    Scene("☀️", "🧢", ["☂️", "🧢", "🧤", "🧥"]),
    Scene("🏫", "🎒", ["🎒", "🎮", "📺", "🛌"]),
    Scene("🍽️", "🥪", ["🥪", "⚽", "🚗", "🛁"]),
    Scene("🥶", "🧥", ["🧥", "🩳", "🧊", "🍦"]),
    Scene("🤕", "🩹", ["🩹", "🎮", "⚽", "🍭"]),
    Scene("🦷", "🪥", ["🪥", "👟", "🎩", "🎒"])
  ]

  const SafetyScenes: seq<Scene> := [
    Scene("🚦🔴", "🧍 Stop", ["🧍 Stop", "🏃 Run", "🚶 Walk", "🚗 Drive"]),
    Scene("🔥", "🚫 Stay Away", ["🚫 Stay Away", "✋ Touch", "🔥 Play", "🏃 Run"]),
    Scene("🔪", "🚫 Don't Touch", ["🚫 Don't Touch", "✋ Play", "🔪 Grab", "🏃 Run"]),
    Scene("🚦🟢", "🚶 Walk", ["🚶 Walk", "🧍 Stop", "🛌 Sleep", "🍽️ Eat"]),
    Scene("🔌", "🚫 Don't Touch", ["🚫 Don't Touch", "🔌 Plug", "💧 Water", "🏃 Run"]),
    Scene("🐕 (Angry)", "🚶 Walk Away", ["🚶 Walk Away", "✋ Pet", "🏃 Run", "🗣️ Yell"]),
    Scene("🏊 (No Adult)", "🧍 Wait", ["🧍 Wait", "🏊 Swim", "🏃 Run", "💦 Jump"])
  ]

  /** Questions per block. */
  const BlockSize: nat := 10
  /** The highest level; finishing it offers no next level. */
  const TopLevel: int := 5
  /** Coin slots in the money grid. */
  const CoinSlots: nat := 7
  /** Failed attempts that trigger a hint. */
  const HintAfter: nat := 3

  /** `generate_question_for_level`'s level table; any other level plays safety. */
  function DomainOf(level: int): (d: Domain)
    ensures level == 1 <==> d == Counting
    ensures level == 2 <==> d == Comparison
    ensures level == 3 <==> d == Daily
    ensures level == 4 <==> d == Money
    ensures !(1 <= level <= 4) <==> d == Safety
  {
    if level == 1 then Counting
    else if level == 2 then Comparison
    else if level == 3 then Daily
    else if level == 4 then Money
    else Safety
  }

  // ------------------------------------------------------------ questions

  /** What a drag question checks in the drop zone. */
  datatype Rule = CountRule(qty: nat) | SumRule(total: nat) | SingleRule(target: string)

  datatype Question =
    | DragQuestion(domain: Domain, instruction: string, rule: Rule, icon: string, options: seq<string>)
    | TapQuestion(domain: Domain, instruction: string, options: seq<string>, correct: string)

  /**
   * The random draws of one attempt: `pick` for `random.choice`, `qty` for the
   * counting `randint(2, 6)`, `isMore`, `few` and `many` for the comparison
   * draws `choice([True, False])`, `randint(1, 4)` and `randint(5, 8)`.
   */
  datatype Draw = Draw(pick: nat, qty: nat, isMore: bool, few: nat, many: nat)

  /** The draws `random` can return for a domain. */
  predicate DrawOk(d: Domain, draw: Draw)
  {
    match d
    case Counting => draw.pick < |CountingIcons| && 2 <= draw.qty <= 6
    case Comparison => draw.pick < |ComparisonIcons| && 1 <= draw.few <= 4 && 5 <= draw.many <= 8
    case Daily => draw.pick < |DailyScenes|
    case Money => draw.pick < |Products|
    case Safety => draw.pick < |SafetyScenes|
  }

  /** The money instruction for product `k` of the shop table. */
  function PayText(k: nat): string
    requires k < |Products|
  {
    "Pay Rs." + Decimal(Products[k].price) + " for [size=70sp]" + Products[k].icon + "[/size]"
  }

  /** The comparison instruction for a draw. */
  function CompareText(isMore: bool): string
  {
    "Tap the box with " + if isMore then "MORE" else "LESS"
  }

  /** One pass of the body of the retry loop: the candidate question for the draws. */
  function Candidate(d: Domain, draw: Draw): (q: Question)
    requires DrawOk(d, draw)
    ensures q.domain == d
    ensures d == Comparison || d == Safety <==> q.TapQuestion?
    ensures d == Counting ==> q.DragQuestion? && q.rule == CountRule(draw.qty)
    ensures d == Money ==> q.DragQuestion? && q.rule == SumRule(Products[draw.pick].price)
    ensures d == Daily ==> q.DragQuestion? && q.rule == SingleRule(DailyScenes[draw.pick].target)
    ensures d == Comparison ==> q.instruction == CompareText(draw.isMore)
  {
    match d
    case Counting =>
      var icon := CountingIcons[draw.pick];
      DragQuestion(d, "Pick " + Decimal(draw.qty) + " [size=70sp]" + icon + "[/size]", CountRule(draw.qty), icon, [])
    case Comparison =>
      var icon := ComparisonIcons[draw.pick];
      var opts := [Repeat(icon, draw.few), Repeat(icon, draw.many)];
      TapQuestion(d, CompareText(draw.isMore), opts, if draw.isMore then opts[1] else opts[0])
    case Money =>
      var p := Products[draw.pick];
      DragQuestion(d, PayText(draw.pick), SumRule(p.price), p.icon, [])
    case Daily =>
      var s := DailyScenes[draw.pick];
      DragQuestion(d, "What do you need? [size=70sp]" + s.scene + "[/size]", SingleRule(s.target), "", s.options)
    case Safety =>
      var s := SafetyScenes[draw.pick];
      TapQuestion(d, "What to do? [size=55sp]" + s.scene + "[/size]", s.options, s.target)
  }

  /** The anti-repetition rule: seen fewer than twice and not the last instruction asked. */
  predicate Accepts(history: seq<string>, inst: string)
  {
    Count(history, inst) < 2 && (history == [] || history[|history| - 1] != inst)
  }

  /** What the rule keeps true of the history: no instruction three times, no instruction twice in a row. */
  ghost predicate HistoryOk(history: seq<string>)
  {
    (forall x :: Count(history, x) <= 2) &&
    forall i :: 0 <= i < |history| - 1 ==> history[i] != history[i + 1]
  }

  /** Appending an accepted instruction keeps the history rule. */
  lemma AcceptKeepsHistory(history: seq<string>, inst: string)
    requires HistoryOk(history) && Accepts(history, inst)
    ensures HistoryOk(history + [inst])
  {
    var h := history + [inst];
    assert h[..|h| - 1] == history;
    forall x
      ensures Count(h, x) <= 2
    {
    }
  }

  /**
   * One attempt of `generate_question_for_level`: the candidate for the
   * draws, appended to the history when the rule accepts it; otherwise the
   * loop would draw again and nothing is recorded.
   */
  function Attempt(level: int, history: seq<string>, draw: Draw): (r: (Option<Question>, seq<string>))
    requires DrawOk(DomainOf(level), draw)
    ensures var inst := Candidate(DomainOf(level), draw).instruction;
      (r.0.Some? <==> Accepts(history, inst)) &&
      (r.0.Some? ==> r.0.value == Candidate(DomainOf(level), draw) && r.1 == history + [inst]) &&
      (r.0.None? ==> r.1 == history)
  {
    var q := Candidate(DomainOf(level), draw);
    if Accepts(history, q.instruction) then (Some(q), history + [q.instruction]) else (None, history)
  }

  /** Over a two-instruction alphabet, the counts of the two add up to the length. */
  lemma {:induction false} CountTwo(h: seq<string>, a: string, b: string)
    requires a != b && forall i :: 0 <= i < |h| ==> h[i] == a || h[i] == b
    ensures Count(h, a) + Count(h, b) == |h|
  {
    if h != [] {
      CountTwo(h[..|h| - 1], a, b);
    }
  }

  /**
   * Level 2 stalls at its fifth question: with only two comparison
   * instructions, each allowed twice, a comparison history of four accepts no
   * further comparison question, whatever is drawn.
   */
  lemma ComparisonStalls(history: seq<string>, draw: Draw)
    requires HistoryOk(history) && |history| == 4
    requires forall i :: 0 <= i < |history| ==> history[i] == CompareText(true) || history[i] == CompareText(false)
    requires DrawOk(Comparison, draw)
    ensures Attempt(2, history, draw).0.None?
  {
    assert CompareText(true)[17] != CompareText(false)[17];
    CountTwo(history, CompareText(true), CompareText(false));
  }

  /** The five money instructions differ from one another. */
  lemma PayTextsDistinct()
    ensures forall i, j :: 0 <= i < j < |Products| ==> PayText(i) != PayText(j)
  {
    var a, b, c, d, e := PayText(0), PayText(1), PayText(2), PayText(3), PayText(4);
    assert a[7] == '1' && b[7] == '2' && c[7] == '5' && d[7] == '3' && e[7] == '1';
    assert |e| == |a| + 1;
  }

  /** With five different instructions, A B A B C D C D E is accepted one instruction at a time. */
  lemma StallingHistoryAccepted(a: string, b: string, c: string, d: string, e: string)
    requires a != b && a != c && a != d && a != e && b != c && b != d && b != e
    requires c != d && c != e && d != e
    ensures var h := [a, b, a, b, c, d, c, d, e];
      forall i :: 0 <= i < |h| ==> Accepts(h[..i], h[i])
  {
    var h := [a, b, a, b, c, d, c, d, e];
    assert h[..0] == [];
    assert h[..1] == [a];
    assert h[..2] == [a, b];
    assert h[..3] == [a, b, a];
    assert h[..4] == [a, b, a, b];
    assert h[..5] == [a, b, a, b, c];
    assert h[..6] == [a, b, a, b, c, d];
    assert h[..7] == [a, b, a, b, c, d, c];
    assert h[..8] == [a, b, a, b, c, d, c, d];
    OnlyOccurrence(h[..2], a, 0);
    OnlyOccurrence(h[..3], b, 1);
    OnlyOccurrence(h[..6], c, 4);
    OnlyOccurrence(h[..7], d, 5);
  }

  /**
   * Level 4 can stall at its tenth question: the five products' instructions
   * asked as A B A B C D C D E are each accepted in turn, after which no
   * money question is accepted, whatever is drawn.
   */
  lemma MoneyStalls(draw: Draw)
    requires DrawOk(Money, draw)
    ensures var h := [PayText(0), PayText(1), PayText(0), PayText(1), PayText(2),
                      PayText(3), PayText(2), PayText(3), PayText(4)];
      (forall i :: 0 <= i < |h| ==> Accepts(h[..i], h[i])) &&
      Attempt(4, h, draw).0.None?
  {
    PayTextsDistinct();
    var ts := [PayText(0), PayText(1), PayText(2), PayText(3), PayText(4)];
    StallingHistoryAccepted(ts[0], ts[1], ts[2], ts[3], ts[4]);
    assert Candidate(Money, draw).instruction == ts[draw.pick];
    StallingHistoryFull(ts[0], ts[1], ts[2], ts[3], ts[4], draw.pick, ts[draw.pick]);
  }

  /** After A B A B C D C D E none of the five instructions is accepted again. */
  lemma StallingHistoryFull(a: string, b: string, c: string, d: string, e: string, k: nat, x: string)
    requires k < 5 && x == [a, b, c, d, e][k]
    ensures !Accepts([a, b, a, b, c, d, c, d, e], x)
  {
    var h := [a, b, a, b, c, d, c, d, e];
    if k < 4 {
      var p := k % 2 + 4 * (k / 2);
      assert h[p] == h[p + 2] == x;
      CountPositions(h, x, {p, p + 2});
    }
  }

  /** A comparison history can never grow past four entries. */
  lemma ComparisonHistoryBounded(history: seq<string>)
    requires HistoryOk(history)
    requires forall i :: 0 <= i < |history| ==> history[i] == CompareText(true) || history[i] == CompareText(false)
    ensures |history| <= 4
  {
    assert CompareText(true)[17] != CompareText(false)[17];
    CountTwo(history, CompareText(true), CompareText(false));
  }

  // ---------------------------------------------------------------- money

  /** The coin values sorted largest first, as the change loop walks them. */
  const Denoms: seq<int> := [500, 100, 50, 20, 10]

  lemma DenomsSortedCoins()
    ensures multiset(Denoms) == multiset(CoinValues)
    ensures forall i, j :: 0 <= i < j < |Denoms| ==> Denoms[i] > Denoms[j]
  {
  }

  /** Largest-first change for `remaining`: as many of each coin as still fit, in coin order. */
  function Change(remaining: int, ds: seq<int>): seq<int>
    decreases |ds|, remaining
  {
    if ds == [] then []
    else if ds[0] > 0 && remaining >= ds[0] then [ds[0]] + Change(remaining - ds[0], ds)
    else Change(remaining, ds[1..])
  }

  /** Every coin value is a positive multiple of 10. */
  predicate Tens(ds: seq<int>)
  {
    forall i :: 0 <= i < |ds| ==> ds[i] > 0 && ds[i] % 10 == 0
  }

  /**
   * With coins in multiples of 10 ending in a 10, the change never overpays,
   * is a multiple of 10, and leaves less than 10 unpaid.
   */
  lemma {:induction false} ChangeBounds(remaining: int, ds: seq<int>)
    requires remaining >= 0 && Tens(ds) && ds != [] && ds[|ds| - 1] == 10
    ensures var s := Sum(Change(remaining, ds));
      s <= remaining && remaining - s < 10 && s % 10 == 0
    decreases |ds|, remaining
  {
    if remaining >= ds[0] {
      ChangeBounds(remaining - ds[0], ds);
      var rest := Change(remaining - ds[0], ds);
      assert Change(remaining, ds) == [ds[0]] + rest;
      SumAppend([ds[0]], rest);
    } else if |ds| > 1 {
      ChangeBounds(remaining, ds[1..]);
    }
  }

  /** Every coin of the change is one of the given values. */
  lemma {:induction false} ChangeCoins(remaining: int, ds: seq<int>)
    ensures forall i :: 0 <= i < |Change(remaining, ds)| ==> Change(remaining, ds)[i] in ds
    decreases |ds|, remaining
  {
    if ds != [] {
      if ds[0] > 0 && remaining >= ds[0] {
        ChangeCoins(remaining - ds[0], ds);
      } else {
        ChangeCoins(remaining, ds[1..]);
      }
    }
  }

  /** Every price in the shop table is paid exactly, with at most two coins. */
  lemma PricesPaidExactly()
    ensures forall k :: 0 <= k < |Products| ==>
      Sum(Change(Products[k].price, Denoms)) == Products[k].price &&
      |Change(Products[k].price, Denoms)| <= 2
  {
    assert Change(10, Denoms) == [10];
    assert Change(20, Denoms) == [20];
    assert Change(50, Denoms) == [50];
    assert Change(30, Denoms) == [20, 10];
    assert Change(100, Denoms) == [100];
  }

  /** Any price in whole tens is paid exactly by the change. */
  lemma ChangeExact(price: int)
    requires price >= 0 && price % 10 == 0
    ensures Sum(Change(price, Denoms)) == price
  {
    ChangeBounds(price, Denoms);
  }

  /**
   * The guaranteed-coins loop of `build_drag_domain`: for each coin, largest
   * first, take it while it still fits.
   */
  method GuaranteedCoins(target: int) returns (coins: seq<int>, remaining: int)
    ensures coins == Change(target, Denoms)
    ensures remaining == target - Sum(coins)
  {
    coins, remaining := [], target;
    var ds := Denoms;
    while ds != []
      invariant Positive(ds)
      invariant coins + Change(remaining, ds) == Change(target, Denoms)
      invariant Sum(coins) + remaining == target
      decreases |ds|
    {
      var c := ds[0];
      while remaining >= c
        invariant coins + Change(remaining, ds) == Change(target, Denoms)
        invariant Sum(coins) + remaining == target
        decreases remaining
      {
        TakeCoin(coins, remaining, ds);
        SumAppend(coins, [c]);
        coins := coins + [c];
        remaining := remaining - c;
      }
      ds := ds[1..];
    }
  }

  /** Every coin value is positive. */
  predicate Positive(ds: seq<int>)
  {
    forall i :: 0 <= i < |ds| ==> ds[i] > 0
  }

  /** One step of the inner loop: taking the first coin keeps the change the same. */
  lemma TakeCoin(coins: seq<int>, remaining: int, ds: seq<int>)
    requires ds != [] && ds[0] > 0 && remaining >= ds[0]
    ensures coins + Change(remaining, ds) == (coins + [ds[0]]) + Change(remaining - ds[0], ds)
  {
  }

  /** The padded coin list: the guaranteed coins, then pool coins until there are seven. */
  function Padded(guaranteed: seq<int>, pool: seq<int>): (f: seq<int>)
    ensures |guaranteed| <= CoinSlots && |pool| >= CoinSlots - |guaranteed| ==> |f| == CoinSlots
    ensures |guaranteed| >= CoinSlots ==> f == guaranteed
  {
    var room := if |guaranteed| >= CoinSlots then 0 else CoinSlots - |guaranteed|;
    guaranteed + pool[..if room <= |pool| then room else |pool|]
  }

  /** The padding loop of `build_drag_domain`: append pool coins, stopping at seven. */
  method PadCoins(guaranteed: seq<int>, pool: seq<int>) returns (coins: seq<int>)
    ensures coins == Padded(guaranteed, pool)
  {
    coins := guaranteed;
    var i := 0;
    while i < |pool|
      invariant 0 <= i <= |pool|
      invariant coins == guaranteed + pool[..i]
      invariant |guaranteed| < CoinSlots ==> |coins| <= CoinSlots
      invariant |coins| < CoinSlots ==> i <= CoinSlots - |guaranteed|
      invariant |guaranteed| >= CoinSlots ==> i == 0
    {
      if |coins| >= CoinSlots {
        break;
      }
      coins := coins + [pool[i]];
      i := i + 1;
    }
  }

  /** The coins shown: the first seven of the shuffled padded list. */
  function Shown(arranged: seq<int>): seq<int>
    requires |arranged| >= CoinSlots
  {
    arranged[..CoinSlots]
  }

  /**
   * With the pool of three copies of each coin, seven coins are always shown,
   * and whenever the exact change takes at most seven coins all of them are
   * among those shown.
   */
  lemma ExactChangeShown(guaranteed: seq<int>, pool: seq<int>, arranged: seq<int>)
    requires |pool| == 3 * |CoinValues|
    requires multiset(arranged) == multiset(Padded(guaranteed, pool))
    ensures |arranged| >= CoinSlots
    ensures |guaranteed| <= CoinSlots ==> multiset(guaranteed) <= multiset(Shown(arranged))
  {
    assert |arranged| == |Padded(guaranteed, pool)| by {
      assert |multiset(arranged)| == |multiset(Padded(guaranteed, pool))|;
    }
    if |guaranteed| <= CoinSlots {
      assert Shown(arranged) == arranged;
      var room := CoinSlots - |guaranteed|;
      assert Padded(guaranteed, pool) == guaranteed + pool[..room];
    }
  }

  // ----------------------------------------------------------------- grid

  /** The grid of draggable items: columns, then x and y of the first cell and the steps between cells. */
  datatype Layout = Layout(cols: nat, startX: real, spaceX: real, startY: real, spaceY: real)

  /** `build_drag_domain`'s layout table for a domain and an item count. */
  function LayoutFor(d: Domain, total: nat): (l: Layout)
    ensures l.cols >= 2 && l.spaceX > 0.0 && l.spaceY > 0.0
    ensures d == Money ==> l.cols == 2
    ensures d == Counting ==> (total <= 6 <==> l.cols == 2) && (total > 6 <==> l.cols == 3)
  {
    if d == Money then Layout(2, 0.12, 0.28, 0.85, 0.24)
    else if d == Counting then
      if total <= 6 then Layout(2, 0.15, 0.22, 0.85, 0.28) else Layout(3, 0.08, 0.15, 0.85, 0.23)
    else Layout(2, 0.10, 0.25, 0.80, 0.30)
  }

  /** The bottom margin below which no item is placed. */
  const Floor: real := 0.12

  /** The centre of item `i`: column `i % cols`, row `i // cols`, clamped to the floor. */
  function Cell(l: Layout, i: nat): (c: (real, real))
    requires l.cols > 0
    ensures c.1 >= Floor
  {
    var col, row := i % l.cols, i / l.cols;
    var py := l.startY - (row as real) * l.spaceY;
    (l.startX + (col as real) * l.spaceX, if py < Floor then Floor else py)
  }

  /** The rows reached by the item counts the game builds never hit the floor clamp. */
  lemma NoClamp(d: Domain, total: nat, i: nat)
    requires d == Counting ==> 4 <= total <= 11
    requires d == Money ==> total == CoinSlots
    requires d == Daily || d == Comparison || d == Safety ==> total == 4
    requires i < total
    ensures var l := LayoutFor(d, total);
      l.startY - ((i / l.cols) as real) * l.spaceY >= Floor
  {
    var l := LayoutFor(d, total);
    assert i / l.cols <= 3;
  }

  // ---------------------------------------------------------- the verdict

  /** A task widget: its `task_name`, icon, coin value, and whether it is the right tap. */
  datatype Task = Task(name: string, icon: string, value: int, isCorrect: bool)

  /** Total value of the items in the zone. */
  function ZoneValue(items: seq<Task>): int
  {
    if items == [] then 0 else ZoneValue(items[..|items| - 1]) + items[|items| - 1].value
  }

  /** The outcome of a drop: the answer is right, wrong (with the message), or still open (with an optional progress line). */
  datatype Verdict = Success | Fail(msg: string) | Open(progress: Option<string>)

  /** `handle_drop`'s check of the zone against the question's rule. */
  function Judge(rule: Rule, items: seq<Task>): (v: Verdict)
    ensures rule.CountRule? ==>
      (v == Success <==> |items| == rule.qty) &&
      (v == Fail("❌ Too many items!") <==> |items| > rule.qty) &&
      (v.Open? <==> |items| < rule.qty)
    ensures rule.SumRule? ==>
      (v == Success <==> ZoneValue(items) == rule.total) &&
      (v == Fail("❌ Too much money!") <==> ZoneValue(items) > rule.total) &&
      (v.Open? <==> ZoneValue(items) < rule.total)
    ensures rule.SingleRule? ==>
      (v == Success <==> |items| == 1 && items[0].name == rule.target) &&
      (v == Fail("❌ Incorrect object!") <==> |items| == 1 && items[0].name != rule.target) &&
      (v.Open? <==> |items| != 1) && (v.Open? ==> v.progress.None?)
  {
    match rule
    case CountRule(q) =>
      if |items| == q then Success
      else if |items| > q then Fail("❌ Too many items!")
      else Open(Some("Placed " + Decimal(|items|) + ". " + Decimal(q - |items|) + " more to go!"))
    case SumRule(t) =>
      var total := ZoneValue(items);
      if total == t then Success
      else if total > t then Fail("❌ Too much money!")
      else Open(Some("Added Rs." + Signed(total) + ". Need Rs." + Signed(t - total) + " more!"))
    case SingleRule(target) =>
      if |items| == 1 then
        if items[0].name == target then Success else Fail("❌ Incorrect object!")
      else Open(None)
  }

  /** Python's `str` of an integer. */
  function Signed(n: int): string
  {
    if n < 0 then "-" + Decimal(-n) else Decimal(n)
  }

  // ------------------------------------------------------------ the items

  /** The coin table's icon for a coin value. */
  function CoinIcon(v: int): string
  {
    if v == 10 then "🪙" else if v == 20 then "💵" else if v == 50 then "💰"
    else if v == 100 then "💳" else "🏦"
  }

  /** A coin task: its label names it, its value counts towards the sum. */
  function CoinTask(v: int): Task
  {
    Task("Rs." + Signed(v), CoinIcon(v), v, false)
  }

  /**
   * The random draws of `build_drag_domain` and `build_tap_domain`: `extra` for
   * the counting `randint(2, 5)`, the shuffled coin `pool`, the shuffled
   * padded coins `arranged`, and the shuffled options `order`.
   */
  datatype Deal = Deal(extra: nat, pool: seq<int>, arranged: seq<int>, order: seq<string>)

  /** The shuffles and draws `random` can return for a question. */
  predicate DealOk(q: Question, deal: Deal)
  {
    match q
    case DragQuestion(_, _, rule, _, options) =>
      (match rule
       case CountRule(_) => 2 <= deal.extra <= 5
       case SumRule(total) =>
         multiset(deal.pool) == multiset(Repeat(CoinValues, 3)) &&
         multiset(deal.arranged) == multiset(Padded(Change(total, Denoms), deal.pool))
       case SingleRule(_) => multiset(deal.order) == multiset(options))
    case TapQuestion(_, _, options, _) => multiset(deal.order) == multiset(options)
  }

  /** The tasks a question lays out: copies of the item, seven coins, or the shuffled options. */
  function Items(q: Question, deal: Deal): seq<Task>
  {
    match q
    case DragQuestion(_, _, rule, icon, _) =>
      (match rule
       case CountRule(n) => Repeat([Task(icon, icon, 1, false)], n + deal.extra)
       case SumRule(_) =>
         var shown := deal.arranged[..if |deal.arranged| < CoinSlots then |deal.arranged| else CoinSlots];
         seq(|shown|, i requires 0 <= i < |shown| => CoinTask(shown[i]))
       case SingleRule(_) => seq(|deal.order|, i requires 0 <= i < |deal.order| => Task(deal.order[i], deal.order[i], 1, false)))
    case TapQuestion(_, _, _, correct) =>
      seq(|deal.order|, i requires 0 <= i < |deal.order| => Task(deal.order[i], deal.order[i], 0, deal.order[i] == correct))
  }

  /** A counting question lays out between two and five spare copies of its item. */
  lemma CountingItems(q: Question, deal: Deal)
    requires q.DragQuestion? && q.rule.CountRule? && DealOk(q, deal)
    ensures var ts := Items(q, deal);
      q.rule.qty + 2 <= |ts| <= q.rule.qty + 5 &&
      forall i :: 0 <= i < |ts| ==> ts[i].icon == q.icon && ts[i].name == q.icon
  {
    var one := [Task(q.icon, q.icon, 1, false)];
    RepeatLength(one, q.rule.qty + deal.extra);
    RepeatOne(one[0], q.rule.qty + deal.extra);
  }

  /** Every element of a one-element sequence repeated is that element. */
  lemma {:induction false} RepeatOne<T>(x: T, n: nat)
    ensures forall i :: 0 <= i < |Repeat([x], n)| ==> Repeat([x], n)[i] == x
  {
    if n > 0 {
      RepeatOne(x, n - 1);
    }
  }

  /**
   * A money question lays out exactly seven coins, and when its price takes at
   * most seven coins of change they are all among them.
   */
  lemma MoneyItems(q: Question, deal: Deal)
    requires q.DragQuestion? && q.rule.SumRule? && DealOk(q, deal)
    ensures |Items(q, deal)| == CoinSlots
    ensures var g := Change(q.rule.total, Denoms);
      |g| <= CoinSlots ==> multiset(g) <= multiset(Shown(deal.arranged))
  {
    RepeatLength(CoinValues, 3);
    assert |deal.pool| == |multiset(deal.pool)| == |multiset(Repeat(CoinValues, 3))|;
    ExactChangeShown(Change(q.rule.total, Denoms), deal.pool, deal.arranged);
  }

  /** A tap question lays out its options, and exactly the options equal to the answer are marked correct. */
  lemma TapItems(q: Question, deal: Deal)
    requires q.TapQuestion? && DealOk(q, deal)
    ensures var ts := Items(q, deal);
      |ts| == |q.options| &&
      forall i :: 0 <= i < |ts| ==> (ts[i].isCorrect <==> ts[i].name == q.correct)
  {
    assert |deal.order| == |multiset(deal.order)| == |multiset(q.options)|;
  }

  // ------------------------------------------------------------- the hint

  /** The tasks in the tray (not in the zone) carrying `icon`, in task order. */
  function Matching(tasks: seq<Task>, zone: seq<nat>, icon: string): (m: seq<nat>)
    ensures |m| <= |tasks|
  {
    if tasks == [] then []
    else
      var n := |tasks| - 1;
      Matching(tasks[..n], zone, icon) + if tasks[n].icon == icon && n !in zone then [n] else []
  }

  /** The matches are exactly the tray tasks carrying the icon. */
  lemma {:induction false} MatchingExact(tasks: seq<Task>, zone: seq<nat>, icon: string)
    ensures var m := Matching(tasks, zone, icon);
      (forall k :: 0 <= k < |m| ==> m[k] < |tasks| && tasks[m[k]].icon == icon && m[k] !in zone) &&
      (forall i :: 0 <= i < |tasks| && tasks[i].icon == icon && i !in zone ==> i in m)
  {
    if tasks != [] {
      MatchingExact(tasks[..|tasks| - 1], zone, icon);
    }
  }

  /** How many glow: the loop glows before it checks, so at least one when any match. */
  function GlowCount(matches: nat, need: int): (k: nat)
    ensures k <= matches
    ensures matches > 0 ==> k > 0
    ensures 1 <= need <= matches ==> k == need
  {
    var want := if need < 1 then 1 else need;
    if want <= matches then want else matches
  }

  /**
   * The counting branch of `trigger_hint`: walk the tasks, glow each matching
   * one in the tray, and stop once `need` glow.
   */
  method GlowTargets(tasks: seq<Task>, zone: seq<nat>, icon: string, need: int) returns (glow: seq<nat>)
    ensures glow == Matching(tasks, zone, icon)[..GlowCount(|Matching(tasks, zone, icon)|, need)]
  {
    glow := [];
    var i := 0;
    while i < |tasks|
      invariant 0 <= i <= |tasks|
      invariant glow == Matching(tasks[..i], zone, icon)
      invariant |glow| < need || |glow| == 0
    {
      assert tasks[..i + 1][..i] == tasks[..i];
      if tasks[i].icon == icon && i !in zone {
        glow := glow + [i];
        if |glow| >= need {
          MatchingPrefix(tasks, zone, icon, i + 1);
          return;
        }
      }
      i := i + 1;
    }
    assert tasks[..i] == tasks;
  }

  /** The matches among a prefix of the tasks are a prefix of all the matches. */
  lemma {:induction false} MatchingPrefix(tasks: seq<Task>, zone: seq<nat>, icon: string, i: nat)
    requires i <= |tasks|
    ensures var p, m := Matching(tasks[..i], zone, icon), Matching(tasks, zone, icon);
      |p| <= |m| && p == m[..|p|]
  {
    if i < |tasks| {
      var n := |tasks| - 1;
      assert tasks[..n][..i] == tasks[..i];
      MatchingPrefix(tasks[..n], zone, icon, i);
    } else {
      assert tasks[..i] == tasks;
    }
  }

  /**
   * The counting hint's `need` as written: the target less the drop zone's
   * children, which include the zone's title label as well as the placed items.
   */
  function NeedAsWritten(qty: int, zone: seq<nat>): int
  {
    qty - (1 + |zone|)
  }

  /** The counting hint's evident `need`: the target less the items already placed. */
  function Need(qty: int, zone: seq<nat>): (need: int)
    ensures zone == [] ==> need == qty
  {
    qty - |zone|
  }

  /**
   * With the zone emptied by the failed attempt, the hint as written glows one
   * tile fewer than the question asks for: two to pick, one glows.
   */
  lemma HintShortByOne()
    ensures var ts := Repeat([Task("🍌", "🍌", 1, false)], 4);
      var m := Matching(ts, [], "🍌");
      |m| == 4 && GlowCount(|m|, NeedAsWritten(2, [])) == 1
  {
    var t := Task("🍌", "🍌", 1, false);
    assert Repeat([t], 4) == [t, t, t, t];
    AllMatch([t, t, t, t], "🍌");
  }

  /**
   * With the evident `need`, a counting hint after a failed attempt glows
   * exactly as many tiles as the question asks to pick.
   */
  lemma HintGlowsTarget(q: Question, deal: Deal)
    requires q.DragQuestion? && q.rule.CountRule? && q.rule.qty >= 1 && DealOk(q, deal)
    ensures var m := Matching(Items(q, deal), [], q.icon);
      GlowCount(|m|, Need(q.rule.qty, [])) == q.rule.qty
  {
    var ts := Items(q, deal);
    CountingItems(q, deal);
    AllMatch(ts, q.icon);
  }

  /** When every task carries the icon and the zone is empty, every task matches. */
  lemma {:induction false} AllMatch(tasks: seq<Task>, icon: string)
    requires forall i :: 0 <= i < |tasks| ==> tasks[i].icon == icon
    ensures |Matching(tasks, [], icon)| == |tasks|
  {
    if tasks != [] {
      AllMatch(tasks[..|tasks| - 1], icon);
    }
  }

  // ------------------------------------------------------------- the zone

  /** The zone lists tasks by index, each at most once. */
  predicate ZoneOk(n: nat, zone: seq<nat>)
  {
    Distinct(zone) && forall k :: 0 <= k < |zone| ==> zone[k] < n
  }

  /** The tasks in the zone, in drop order. */
  function ZoneItems(tasks: seq<Task>, zone: seq<nat>): (items: seq<Task>)
    requires forall k :: 0 <= k < |zone| ==> zone[k] < |tasks|
    ensures |items| == |zone|
  {
    seq(|zone|, k requires 0 <= k < |zone| => tasks[zone[k]])
  }

  /** Python's `list.remove` when the element may be absent: drop its first occurrence, if any. */
  function RemoveFirst(s: seq<nat>, x: nat): seq<nat>
  {
    if s == [] then [] else if s[0] == x then s[1..] else [s[0]] + RemoveFirst(s[1..], x)
  }

  /** Removing from a distinct zone leaves a distinct zone of the other tasks. */
  lemma {:induction false} RemoveFirstDistinct(s: seq<nat>, x: nat)
    requires Distinct(s)
    ensures var r := RemoveFirst(s, x);
      Distinct(r) && x !in r && (forall y :: y in r <==> y in s && y != x)
  {
    if s != [] && s[0] != x {
      RemoveFirstDistinct(s[1..], x);
      assert s[0] !in s[1..];
      var r := RemoveFirst(s[1..], x);
      assert forall j :: 0 <= j < |r| ==> r[j] != s[0];
    } else if s != [] {
      assert s[0] !in s[1..];
    }
  }

  /** Picking a task up and dropping it in the zone keeps the zone well formed, with the task last. */
  lemma DropKeepsZone(n: nat, zone: seq<nat>, t: nat)
    requires ZoneOk(n, zone) && t < n
    ensures ZoneOk(n, RemoveFirst(zone, t)) && ZoneOk(n, RemoveFirst(zone, t) + [t])
  {
    RemoveFirstDistinct(zone, t);
    var r := RemoveFirst(zone, t);
    forall k | 0 <= k < |r| ensures r[k] < n {
      assert r[k] in zone;
    }
  }

  // ------------------------------------------------------------ the hints

  const HintText: string := "Hint! Look for the glowing area 👀"
  const Correct: string := "✔ Correct! Awesome!"
  const TryAgain: string := "❌ Try Again"

  /** The tasks `trigger_hint` glows for a question. */
  function HintTiles(q: Question, tasks: seq<Task>, zone: seq<nat>): set<nat>
  {
    match q
    case DragQuestion(_, _, rule, icon, _) =>
      (match rule
       case CountRule(qty) =>
         var m := Matching(tasks, zone, icon);
         set k | 0 <= k < GlowCount(|m|, Need(qty, zone)) :: m[k]
       case SumRule(_) => {}
       case SingleRule(target) => set i | 0 <= i < |tasks| && tasks[i].name == target && i !in zone)
    case TapQuestion(_, _, _, _) => set i | 0 <= i < |tasks| && tasks[i].isCorrect
  }

  /** Only the money question glows the zone itself. */
  predicate HintsZone(q: Question)
  {
    q.DragQuestion? && q.rule.SumRule?
  }

  /** The hint only glows tasks that exist. */
  lemma HintTilesExist(q: Question, tasks: seq<Task>, zone: seq<nat>)
    ensures forall i :: i in HintTiles(q, tasks, zone) ==> i < |tasks|
  {
    if q.DragQuestion? && q.rule.CountRule? {
      MatchingExact(tasks, zone, q.icon);
    }
  }

  /** The header line of a question: its place in the block, the level and the instruction. */
  function Header(qIdx: int, level: int, instruction: string): string
  {
    "[" + Signed(qIdx + 1) + "/10] Lvl " + Signed(level) + ":   " + instruction
  }

  /** The header shows the question's number in the block, then ends with the instruction as given. */
  lemma HeaderShows(qIdx: nat, level: int, instruction: string)
    ensures var h := Header(qIdx, level, instruction);
      var n := |Decimal(qIdx + 1)|;
      |h| >= n + 5 + |instruction| && h[0] == '[' && h[n + 1..n + 5] == "/10]" &&
      DecimalValue(h[1..n + 1]) == qIdx + 1 && h[|h| - |instruction|..] == instruction
  {
    DecimalRoundTrip(qIdx + 1);
    var tail := " Lvl " + Signed(level) + ":   ";
    assert Header(qIdx, level, instruction) == "[" + Decimal(qIdx + 1) + "/10]" + tail + instruction;
    Pieces(Decimal(qIdx + 1), tail, instruction);
  }

  /** Where the pieces of `[d/10]m x` sit. */
  lemma Pieces(d: string, m: string, x: string)
    ensures var h := "[" + d + "/10]" + m + x;
      |h| == |d| + 5 + |m| + |x| && h[0] == '[' && h[1..|d| + 1] == d &&
      h[|d| + 1..|d| + 5] == "/10]" && h[|h| - |x|..] == x
  {
    var h := "[" + d + "/10]" + m + x;
    assert h == ("[" + d) + ("/10]" + m) + x;
  }

  // ------------------------------------------------------------ the game

  /**
   * The game screen: the level and block position, the instruction history,
   * the current question and its tasks, the drop zone (task indices in drop
   * order), the failed-attempt counter, the labels, the lock set by a right
   * answer, the glowing tasks and zone, and the next level offered at the end
   * of a block.
   */
  class VrlGame {
    var level: int
    var qIdx: int
    var history: seq<string>
    var question: Option<Question>
    var tasks: seq<Task>
    var zone: seq<nat>
    var failed: nat
    var heading: string
    var feedback: string
    var locked: bool
    var glowing: set<nat>
    var zoneGlow: bool
    var nextLevel: Option<int>

    /** No instruction repeats past the rule, and the zone and the glow name existing tasks. */
    ghost predicate Valid()
      reads this`history, this`tasks, this`zone, this`glowing
    {
      HistoryOk(history) && ZoneOk(|tasks|, zone) && forall i :: i in glowing ==> i < |tasks|
    }

    constructor()
      ensures Valid()
      ensures level == 1 && qIdx == 0 && history == [] && question == None && tasks == [] && zone == []
      ensures failed == 0 && !locked && glowing == {} && !zoneGlow && nextLevel == None
    {
      level, qIdx, history, question := 1, 0, [], None;
      tasks, zone, failed := [], [], 0;
      heading, feedback := "", "";
      locked, glowing, zoneGlow, nextLevel := false, {}, false, None;
    }

    /** `start_session`: a fresh block at the chosen level; its first question is always accepted. */
    method StartSession(explicitLevel: int, draw: Draw, deal: Deal)
      requires DrawOk(DomainOf(explicitLevel), draw)
      requires ZoneOk(|tasks|, zone) && forall i :: i in glowing ==> i < |tasks|
      modifies this
      ensures Valid()
      ensures level == explicitLevel && qIdx == 0
      ensures var q := Candidate(DomainOf(explicitLevel), draw);
        question == Some(q) && history == [q.instruction] && tasks == Items(q, deal) && zone == [] && failed == 0 &&
        heading == Header(0, explicitLevel, q.instruction) && feedback == ""
      ensures !locked && glowing == {} && !zoneGlow && nextLevel == None
    {
      qIdx, level, history := 0, explicitLevel, [];
      var loaded := LoadCurrentQuestion(draw, deal);
    }

    /**
     * `load_current_question`: after ten questions the block-complete screen,
     * offering the next level below the top one; otherwise one attempt of the
     * question generator, which, when accepted, lays out a fresh question.
     */
    method LoadCurrentQuestion(draw: Draw, deal: Deal) returns (loaded: bool)
      requires Valid()
      requires qIdx < BlockSize ==> DrawOk(DomainOf(level), draw)
      modifies this`history, this`question, this`tasks, this`zone, this`failed, this`heading
      modifies this`feedback, this`locked, this`glowing, this`zoneGlow, this`nextLevel
      ensures Valid()
      ensures qIdx >= BlockSize ==> (
        !loaded && heading == "All Challenges Complete! 🎉" &&
        feedback == "You crushed Level " + Signed(level) + "!" && tasks == [] && zone == [] &&
        nextLevel == (if level < TopLevel then Some(level + 1) else None) &&
        history == old(history) && question == old(question) &&
        glowing == {} && !zoneGlow && failed == old(failed) && locked == old(locked))
      ensures qIdx < BlockSize ==> var r := Attempt(level, old(history), draw);
        loaded == r.0.Some? && history == r.1 &&
        (loaded ==> (
          question == r.0 && tasks == Items(r.0.value, deal) && zone == [] && failed == 0 &&
          heading == Header(qIdx, level, r.0.value.instruction) && feedback == "" &&
          !locked && glowing == {} && !zoneGlow && nextLevel == None)) &&
        (!loaded ==> (
          question == old(question) && tasks == old(tasks) && zone == old(zone) &&
          failed == old(failed) && heading == old(heading) && feedback == old(feedback) &&
          locked == old(locked) && glowing == old(glowing) && zoneGlow == old(zoneGlow) &&
          nextLevel == old(nextLevel)))
    {
      if qIdx >= BlockSize {
        ShowBlockDone();
        return false;
      }
      var r := Attempt(level, history, draw);
      loaded := r.0.Some?;
      if loaded {
        AcceptKeepsHistory(history, r.0.value.instruction);
        history := r.1;
        LayOut(r.0.value, deal);
      }
    }

    /** The block-complete screen. */
    method ShowBlockDone()
      modifies this`tasks, this`zone, this`heading, this`feedback, this`glowing, this`zoneGlow, this`nextLevel
      ensures heading == "All Challenges Complete! 🎉" && feedback == "You crushed Level " + Signed(level) + "!"
      ensures tasks == [] && zone == [] && glowing == {} && !zoneGlow
      ensures nextLevel == (if level < TopLevel then Some(level + 1) else None)
    {
      heading := "All Challenges Complete! 🎉";
      tasks, zone, glowing, zoneGlow := [], [], {}, false;
      feedback := "You crushed Level " + Signed(level) + "!";
      nextLevel := if level < TopLevel then Some(level + 1) else None;
    }

    /** The rest of `load_current_question` for an accepted question: a clean screen with its tasks. */
    method LayOut(q: Question, deal: Deal)
      modifies this`question, this`tasks, this`zone, this`failed, this`heading
      modifies this`feedback, this`locked, this`glowing, this`zoneGlow, this`nextLevel
      ensures question == Some(q) && tasks == Items(q, deal) && zone == [] && failed == 0
      ensures heading == Header(qIdx, level, q.instruction) && feedback == ""
      ensures !locked && glowing == {} && !zoneGlow && nextLevel == None
    {
      question := Some(q);
      heading := Header(qIdx, level, q.instruction);
      failed, feedback := 0, "";
      tasks, zone := Items(q, deal), [];
      locked, glowing, zoneGlow, nextLevel := false, {}, false, None;
    }

    /**
     * A drag gesture on task `t`: picking it up takes it out of the zone; a
     * release over the zone puts it back last and judges the zone. A task
     * locked by a right answer does not move.
     */
    method Drag(t: nat, collides: bool)
      requires Valid() && question.Some? && question.value.DragQuestion? && t < |tasks|
      modifies this`zone, this`feedback, this`failed, this`locked, this`qIdx, this`glowing, this`zoneGlow
      ensures Valid()
      ensures old(locked) ==> (
        zone == old(zone) && feedback == old(feedback) && failed == old(failed) &&
        qIdx == old(qIdx) && locked && glowing == old(glowing) && zoneGlow == old(zoneGlow))
      ensures !old(locked) && !collides ==> (
        zone == RemoveFirst(old(zone), t) &&
        feedback == old(feedback) && failed == old(failed) && qIdx == old(qIdx) && !locked &&
        glowing == old(glowing) && zoneGlow == old(zoneGlow))
      ensures !old(locked) && collides ==> ZoneOk(|tasks|, RemoveFirst(old(zone), t) + [t])
      ensures !old(locked) && collides ==>
        var z := RemoveFirst(old(zone), t) + [t];
        var v := Judge(question.value.rule, ZoneItems(tasks, z));
        (v.Success? ==> (
          zone == z && locked && qIdx == old(qIdx) + 1 && feedback == Correct && failed == old(failed) &&
          glowing == old(glowing) && !zoneGlow)) &&
        (v.Fail? ==> (
          zone == [] && !locked && qIdx == old(qIdx) && failed == old(failed) + 1 &&
          feedback == (if failed >= HintAfter then HintText else v.msg) &&
          glowing == old(glowing) + (if failed >= HintAfter then HintTiles(question.value, tasks, []) else {}) &&
          zoneGlow == (old(zoneGlow) || (failed >= HintAfter && HintsZone(question.value))))) &&
        (v.Open? ==> (
          zone == z && !locked && qIdx == old(qIdx) && failed == old(failed) &&
          feedback == (if v.progress.Some? then v.progress.value else old(feedback)) &&
          glowing == old(glowing) && zoneGlow == old(zoneGlow)))
    {
      if locked {
        return;
      }
      DropKeepsZone(|tasks|, zone, t);
      zone := RemoveFirst(zone, t);
      if collides {
        zone := zone + [t];
        var v := Judge(question.value.rule, ZoneItems(tasks, zone));
        match v
        case Success => CorrectAction();
        case Fail(msg) => WrongAction(msg);
        case Open(progress) =>
          if progress.Some? {
            feedback := progress.value;
          }
      }
    }

    /** `on_tap_task`: the right option is a correct answer, any other a failed attempt. */
    method Tap(t: nat)
      requires Valid() && question.Some? && question.value.TapQuestion? && t < |tasks|
      modifies this`zone, this`feedback, this`failed, this`locked, this`qIdx, this`glowing, this`zoneGlow
      ensures Valid() && zone == old(zone)
      ensures old(locked) ==> (
        feedback == old(feedback) && failed == old(failed) && qIdx == old(qIdx) && locked &&
        glowing == old(glowing) && zoneGlow == old(zoneGlow))
      ensures !old(locked) && tasks[t].isCorrect ==> (
        locked && qIdx == old(qIdx) + 1 && feedback == Correct && failed == old(failed) &&
        glowing == {} && zoneGlow == old(zoneGlow))
      ensures !old(locked) && !tasks[t].isCorrect ==> (
        !locked && qIdx == old(qIdx) && failed == old(failed) + 1 &&
        feedback == (if failed >= HintAfter then HintText else TryAgain) &&
        glowing == old(glowing) + (if failed >= HintAfter then HintTiles(question.value, tasks, zone) else {}) &&
        zoneGlow == old(zoneGlow))
    {
      if locked {
        return;
      }
      if tasks[t].isCorrect {
        CorrectAction();
      } else {
        WrongAction(TryAgain);
      }
    }

    /** `correct_action`: praise, lock the tasks, stop the glow, and move to the next question. */
    method CorrectAction()
      requires question.Some?
      modifies this`feedback, this`locked, this`qIdx, this`glowing, this`zoneGlow
      ensures feedback == Correct && locked && qIdx == old(qIdx) + 1
      ensures question.value.DragQuestion? ==> !zoneGlow && glowing == old(glowing)
      ensures question.value.TapQuestion? ==> glowing == {} && zoneGlow == old(zoneGlow)
    {
      feedback := Correct;
      if question.value.DragQuestion? {
        zoneGlow := false;
      } else {
        glowing := {};
      }
      locked := true;
      qIdx := qIdx + 1;
    }

    /**
     * `wrong_action`: count the failure, show the message, send a drag
     * question's items back to the tray, and hint from the third failure on.
     */
    method WrongAction(msg: string)
      requires Valid() && question.Some?
      modifies this`zone, this`feedback, this`failed, this`glowing, this`zoneGlow
      ensures Valid() && failed == old(failed) + 1
      ensures zone == if question.value.DragQuestion? then [] else old(zone)
      ensures feedback == if failed >= HintAfter then HintText else msg
      ensures glowing == old(glowing) + (if failed >= HintAfter then HintTiles(question.value, tasks, zone) else {})
      ensures zoneGlow == (old(zoneGlow) || (failed >= HintAfter && HintsZone(question.value)))
    {
      failed := failed + 1;
      feedback := msg;
      if question.value.DragQuestion? {
        zone := [];
      }
      if failed >= HintAfter {
        TriggerHint();
      }
    }

    /**
     * `trigger_hint`: a daily question glows the tray items named as the
     * answer, a counting question as many tray items as are still needed, a
     * money question the zone, and a tap question the right options.
     */
    method TriggerHint()
      requires Valid() && question.Some?
      modifies this`feedback, this`glowing, this`zoneGlow
      ensures Valid() && feedback == HintText
      ensures glowing == old(glowing) + HintTiles(question.value, tasks, zone)
      ensures zoneGlow == (old(zoneGlow) || HintsZone(question.value))
    {
      feedback := HintText;
      HintTilesExist(question.value, tasks, zone);
      var q := question.value;
      if q.DragQuestion? && q.rule.CountRule? {
        var glow := GlowTargets(tasks, zone, q.icon, Need(q.rule.qty, zone));
        assert (set k | 0 <= k < |glow| :: glow[k]) == HintTiles(q, tasks, zone);
        glowing := glowing + set k | 0 <= k < |glow| :: glow[k];
      } else if HintsZone(q) {
        zoneGlow := true;
      } else {
        glowing := glowing + HintTiles(q, tasks, zone);
      }
    }
  }
}
