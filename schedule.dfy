/**
 * Model of the schedule logic of main.py: validating a new event on the
 * admin screen, choosing today's events and classifying them on the
 * timeline, picking the current and next events for the dashboard, and
 * choosing between an image and a text label for an icon.
 *
 * The event table is an in-memory list in insertion order; a time is an
 * integer count of microseconds, so that a day starts at each multiple of
 * `Day`. Parsing `HH:MM` is a parameter (`strptime` is not part of this
 * model), returning minutes since midnight. Widgets are reduced to the texts,
 * icons and opacity they show.
 */
module Schedule {
  import opened Seqs

  /** Microseconds in a second, a minute and a day. */
  const Second: int := 1000000
  const Minute: int := 60 * Second
  const Day: int := 86400 * Second

  /** A time of day to the minute, as `strptime(..., '%H:%M')` reads it. */
  type Minutes = m: int | 0 <= m < 1440

  /** A stored event: title, start and end times, and icon text or image path. */
  datatype Event = Event(title: string, start: int, end: int, icon: string)

  datatype Result<T> = Ok(value: T) | Err(msg: string)

  // ------------------------------------------------------------ strip

  /** The characters Python's `str.strip` removes, restricted to ASCII. */
  predicate IsSpace(c: char)
  {
    c == ' ' || c == '\t' || c == '\n' || c == '\r' || c == '\U{B}' || c == '\U{C}'
  }

  /** Python's `s.lstrip()`. */
  function TrimLeft(s: string): string
  {
    if s != [] && IsSpace(s[0]) then TrimLeft(s[1..]) else s
  }

  /** Python's `s.rstrip()`. */
  function TrimRight(s: string): string
  {
    if s != [] && IsSpace(s[|s| - 1]) then TrimRight(s[..|s| - 1]) else s
  }

  /** Python's `s.strip()`. */
  function Strip(s: string): string
  {
    TrimRight(TrimLeft(s))
  }

  /** `lstrip` removes exactly the leading whitespace. */
  lemma {:induction false} TrimLeftShape(s: string)
    ensures var r := TrimLeft(s);
      |r| <= |s| && r == s[|s| - |r|..] && (r == [] || !IsSpace(r[0])) &&
      forall i :: 0 <= i < |s| - |r| ==> IsSpace(s[i])
  {
    if s != [] && IsSpace(s[0]) {
      var t, r := s[1..], TrimLeft(s[1..]);
      TrimLeftShape(t);
      assert r == t[|t| - |r|..] == s[|s| - |r|..];
      forall i | 0 <= i < |s| - |r|
        ensures IsSpace(s[i])
      {
        if i > 0 {
          assert s[i] == t[i - 1];
        }
      }
    }
  }

  /** `rstrip` removes exactly the trailing whitespace. */
  lemma {:induction false} TrimRightShape(s: string)
    ensures var r := TrimRight(s);
      |r| <= |s| && r == s[..|r|] && (r == [] || !IsSpace(r[|r| - 1])) &&
      forall i :: |r| <= i < |s| ==> IsSpace(s[i])
  {
    if s != [] && IsSpace(s[|s| - 1]) {
      TrimRightShape(s[..|s| - 1]);
    }
  }

  /**
   * The stripped text is a slice of the field with no whitespace at either
   * end, and it is empty exactly when the field is all whitespace.
   */
  lemma StripShape(s: string)
    ensures var r := Strip(s);
      (r == [] || (!IsSpace(r[0]) && !IsSpace(r[|r| - 1]))) &&
      (r == [] <==> forall i :: 0 <= i < |s| ==> IsSpace(s[i]))
  {
    var l := TrimLeft(s);
    TrimLeftShape(s);
    TrimRightShape(l);
    if Strip(s) != [] {
      var k := |s| - |l|;
      assert l[0] == s[k];
    }
  }

  /** Stripping twice is stripping once. */
  lemma StripIdempotent(s: string)
    ensures Strip(Strip(s)) == Strip(s)
  {
    var r := Strip(s);
    StripShape(s);
    if r != [] {
      assert TrimLeft(r) == r;
      TrimRightShape(TrimLeft(s));
      assert TrimRight(r) == r;
    }
  }

  // ------------------------------------------------------------ add_task

  const FillIn: string := "Please fill in title, start time, and end time."
  const BadFormat: string := "Invalid time format. Use HH:MM (e.g. 08:30)"
  const EndAfter: string := "End time must be after start time."

  /** The icon stored for an entered icon: the calendar when none was entered. */
  function StoredIcon(icon: string): (r: string)
    ensures r != []
    ensures icon != [] ==> r == icon
  {
    if icon == [] then "📅" else icon
  }

  /**
   * `add_task`'s checks on the stripped fields, in order: all three of title,
   * start and end present; both times readable; end strictly after start.
   * A valid entry becomes an event of the day starting at `today`.
   */
  function Validate(title: string, start: string, end: string, icon: string, today: int,
                    parse: string -> Option<Minutes>): (r: Result<Event>)
    ensures r == Err(FillIn) <==> title == [] || start == [] || end == []
    ensures r == Err(BadFormat) <==>
      title != [] && start != [] && end != [] && (parse(start).None? || parse(end).None?)
    ensures r == Err(EndAfter) <==>
      title != [] && start != [] && end != [] && parse(start).Some? && parse(end).Some? &&
      parse(end).value <= parse(start).value
    ensures r.Ok? <==>
      title != [] && start != [] && end != [] && parse(start).Some? && parse(end).Some? &&
      parse(start).value < parse(end).value
    ensures r.Ok? ==>
      r.value.title == title && r.value.icon == StoredIcon(icon) &&
      r.value.start == today + parse(start).value * Minute &&
      r.value.end == today + parse(end).value * Minute &&
      r.value.start < r.value.end
  {
    if title == [] || start == [] || end == [] then Err(FillIn)
    else match (parse(start), parse(end))
      case (Some(s), Some(e)) =>
        if e <= s then Err(EndAfter)
        else Ok(Event(title, today + s * Minute, today + e * Minute, StoredIcon(icon)))
      case _ => Err(BadFormat)
  }

  /** The admin form: its four input fields, the event table and the last error shown. */
  class AdminForm {
    var titleText: string
    var startText: string
    var endText: string
    var iconText: string
    var events: seq<Event>
    var popup: Option<string>

    constructor(events0: seq<Event>)
      ensures events == events0 && popup == None
      ensures titleText == [] && startText == [] && endText == [] && iconText == []
    {
      events, popup := events0, None;
      titleText, startText, endText, iconText := [], [], [], [];
    }

    /**
     * `add_task`: validate the stripped fields; an accepted event is stored
     * and the four fields are cleared, a rejected one shows its message and
     * changes nothing else.
     */
    method AddTask(now: int, parse: string -> Option<Minutes>)
      modifies this
      ensures var r := Validate(Strip(old(titleText)), Strip(old(startText)), Strip(old(endText)),
                                Strip(old(iconText)), DayStart(now), parse);
        (r.Ok? ==> (
          events == old(events) + [r.value] && popup == old(popup) &&
          titleText == [] && startText == [] && endText == [] && iconText == [])) &&
        (r.Err? ==> (
          events == old(events) && popup == Some(r.msg) &&
          titleText == old(titleText) && startText == old(startText) &&
          endText == old(endText) && iconText == old(iconText)))
    {
      var r := Validate(Strip(titleText), Strip(startText), Strip(endText), Strip(iconText), DayStart(now), parse);
      if r.Ok? {
        events := events + [r.value];
        titleText, startText, endText, iconText := [], [], [], [];
      } else {
        popup := Some(r.msg);
      }
    }
  }

  // ------------------------------------------------------------ the day

  /** `now.replace(hour=0, minute=0, second=0)` as written: midnight, but with `now`'s microseconds. */
  function DayStartAsWritten(now: int): int
  {
    now - now % Day + now % Second
  }

  /** `now.replace(hour=23, minute=59, second=59)`, with `now`'s microseconds. */
  function DayEndAsWritten(now: int): int
  {
    now - now % Day + 86399 * Second + now % Second
  }

  /** The timeline query's day filter as written. */
  predicate OnTodayAsWritten(e: Event, now: int)
  {
    DayStartAsWritten(now) <= e.start <= DayEndAsWritten(now)
  }

  /**
   * An event entered for 00:00 is dropped from the timeline as written
   * whenever the clock's microseconds are not zero.
   */
  lemma MidnightEventHidden()
    ensures var now := 9 * 3600 * Second + 123456;
      var e := Event("Breakfast", 0, 30 * Minute, "📅");
      e.start / Day == now / Day && !OnTodayAsWritten(e, now)
  {
  }

  /** Midnight of the day holding `now`. */
  function DayStart(now: int): (d: int)
    ensures d <= now < d + Day && d % Day == 0
  {
    now - now % Day
  }

  /** The day filter with the microseconds cleared: the start lies in `now`'s day. */
  predicate OnToday(e: Event, now: int)
  {
    DayStart(now) <= e.start < DayStart(now) + Day
  }

  /** The corrected filter keeps exactly the events starting on `now`'s day. */
  lemma OnTodaySameDay(e: Event, now: int)
    ensures OnToday(e, now) <==> e.start / Day == now / Day
  {
    var d := now / Day;
    assert DayStart(now) == d * Day;
    if OnToday(e, now) {
      assert d * Day <= e.start < d * Day + Day;
      DivRange(e.start, d);
    }
  }

  lemma DivRange(x: int, d: int)
    requires d * Day <= x < d * Day + Day
    ensures x / Day == d
  {
    var q, r := x / Day, x % Day;
    assert x == q * Day + r && 0 <= r < Day;
  }

  /** Every event `add_task` accepts shows on that day's timeline, midnight included. */
  lemma AddedEventListed(title: string, start: string, end: string, icon: string, now: int,
                         parse: string -> Option<Minutes>)
    requires Validate(title, start, end, icon, DayStart(now), parse).Ok?
    ensures OnToday(Validate(title, start, end, icon, DayStart(now), parse).value, now)
  {
    var s := parse(start).value;
    assert s * Minute < Day;
  }

  /** The day's rows of the event table, in table order, before the query orders them. */
  function TodayRows(events: seq<Event>, now: int): (rows: seq<Event>)
    ensures forall k :: 0 <= k < |rows| ==> rows[k] in events && OnToday(rows[k], now)
    ensures forall e :: e in events && OnToday(e, now) ==> e in rows
  {
    if events == [] then []
    else
      var rest := TodayRows(events[..|events| - 1], now);
      var e := events[|events| - 1];
      rest + if OnToday(e, now) then [e] else []
  }

  /** Rows in `order_by(Event.start_time)` order: no row starts after a later one. */
  predicate ByStart(rows: seq<Event>)
  {
    forall i, j :: 0 <= i < j < |rows| ==> rows[i].start <= rows[j].start
  }

  /** `e` placed after every leading row that does not start later than it. */
  function InsertByStart(e: Event, rows: seq<Event>): seq<Event>
  {
    if rows == [] || e.start < rows[0].start then [e] + rows
    else [rows[0]] + InsertByStart(e, rows[1..])
  }

  /** Inserting keeps the rows and adds `e`. */
  lemma {:induction false} InsertByStartKeeps(e: Event, rows: seq<Event>)
    ensures multiset(InsertByStart(e, rows)) == multiset(rows) + multiset{e}
  {
    if rows != [] && e.start >= rows[0].start {
      InsertByStartKeeps(e, rows[1..]);
      assert rows == [rows[0]] + rows[1..];
    }
  }

  /** Every inserted row is `e` or one of the rows. */
  lemma {:induction false} InsertByStartFrom(e: Event, rows: seq<Event>, x: Event)
    requires x in InsertByStart(e, rows)
    ensures x == e || x in rows
  {
    if rows != [] && e.start >= rows[0].start && x != rows[0] {
      InsertByStartFrom(e, rows[1..], x);
    }
  }

  /** Inserting into ordered rows keeps them ordered. */
  lemma {:induction false} InsertByStartOrdered(e: Event, rows: seq<Event>)
    requires ByStart(rows)
    ensures ByStart(InsertByStart(e, rows))
  {
    if rows != [] && e.start >= rows[0].start {
      var t := InsertByStart(e, rows[1..]);
      InsertByStartOrdered(e, rows[1..]);
      var r := [rows[0]] + t;
      forall i, j | 0 <= i < j < |r|
        ensures r[i].start <= r[j].start
      {
        if i == 0 {
          assert r[j] == t[j - 1];
          InsertByStartFrom(e, rows[1..], t[j - 1]);
        } else {
          assert r[i] == t[i - 1] && r[j] == t[j - 1];
        }
      }
    }
  }

  /** Insertion by start, row by row in table order. */
  function SortByStart(rows: seq<Event>): seq<Event>
  {
    if rows == [] then [] else InsertByStart(rows[|rows| - 1], SortByStart(rows[..|rows| - 1]))
  }

  /** Sorting gives the same rows, ordered by start. */
  lemma {:induction false} SortByStartOk(rows: seq<Event>)
    ensures multiset(SortByStart(rows)) == multiset(rows)
    ensures ByStart(SortByStart(rows))
  {
    if rows != [] {
      var p := rows[..|rows| - 1];
      SortByStartOk(p);
      InsertByStartKeeps(rows[|rows| - 1], SortByStart(p));
      InsertByStartOrdered(rows[|rows| - 1], SortByStart(p));
      assert rows == p + [rows[|rows| - 1]];
    }
  }

  /** The timeline query: the events starting on `now`'s day, ordered by start. */
  function TimelineRows(events: seq<Event>, now: int): seq<Event>
  {
    SortByStart(TodayRows(events, now))
  }

  /**
   * The timeline lists each of the day's events as often as the table holds
   * it, nothing else, and earlier starts first.
   */
  lemma TimelineRowsOk(events: seq<Event>, now: int)
    ensures ByStart(TimelineRows(events, now))
    ensures multiset(TimelineRows(events, now)) == multiset(TodayRows(events, now))
    ensures forall e :: e in TimelineRows(events, now) <==> e in events && OnToday(e, now)
  {
    var rows := TodayRows(events, now);
    SortByStartOk(rows);
    forall e
      ensures e in TimelineRows(events, now) <==> e in rows
    {
      assert e in TimelineRows(events, now) <==> e in multiset(TimelineRows(events, now));
    }
  }

  // ------------------------------------------------------------ timeline

  /** What an icon slot shows. */
  datatype IconView = Image(path: string) | Text(text: string)

  predicate EndsWith(s: string, suffix: string)
  {
    |suffix| <= |s| && s[|s| - |suffix|..] == suffix
  }

  predicate IsImage(s: string)
  {
    EndsWith(s, ".png") || EndsWith(s, ".jpg")
  }

  /** A timeline card: its title with the status suffix, its icon, whether it is highlighted, and its opacity. */
  datatype Card = Card(title: string, icon: IconView, current: bool, opacity: real)

  /** The card of one event at time `now`. */
  function CardOf(e: Event, now: int): (c: Card)
    ensures c.current <==> e.start <= now <= e.end
    ensures c.opacity == (if e.end < now then 0.6 else 1.0)
    ensures e.start <= now <= e.end ==> c.title == e.title + " (NOW)"
    ensures e.end < now ==> c.title == e.title + " (DONE)"
    ensures now < e.start && now <= e.end ==> c.title == e.title
    ensures c.icon.Image? <==> IsImage(e.icon)
    ensures IsImage(e.icon) ==> c.icon == Image(e.icon)
    ensures !IsImage(e.icon) ==> c.icon == Text(StoredIcon(e.icon))
  {
    var isPast := e.end < now;
    var isCurrent := e.start <= now <= e.end;
    var title := if isCurrent then e.title + " (NOW)" else if isPast then e.title + " (DONE)" else e.title;
    var icon := if e.icon != [] && IsImage(e.icon) then Image(e.icon) else Text(StoredIcon(e.icon));
    Card(title, icon, isCurrent, if isPast then 0.6 else 1.0)
  }

  /** Past and current exclude each other: a card is never both faded and highlighted. */
  lemma PastNotCurrent(e: Event, now: int)
    ensures !(CardOf(e, now).current && CardOf(e, now).opacity == 0.6)
  {
  }

  /** The cards of the rows, one per row, in row order. */
  function Cards(rows: seq<Event>, now: int): (cs: seq<Card>)
    ensures |cs| == |rows|
  {
    seq(|rows|, k requires 0 <= k < |rows| => CardOf(rows[k], now))
  }

  /** `load_timeline`: the day query, then one card per row. */
  method LoadTimeline(events: seq<Event>, now: int) returns (cards: seq<Card>)
    ensures cards == Cards(TimelineRows(events, now), now)
  {
    cards := BuildCards(TimelineRows(events, now), now);
  }

  /** The card loop of `load_timeline`. */
  method BuildCards(rows: seq<Event>, now: int) returns (cards: seq<Card>)
    ensures cards == Cards(rows, now)
  {
    cards := [];
    var i := 0;
    while i < |rows|
      invariant 0 <= i <= |rows|
      invariant cards == Cards(rows[..i], now)
    {
      cards := cards + [CardOf(rows[i], now)];
      i := i + 1;
    }
    assert rows[..i] == rows;
  }

  // ------------------------------------------------------------ now/next

  /** The first event in the table under way at `now`. */
  function Current(events: seq<Event>, now: int): (r: Option<Event>)
    ensures r.Some? ==> r.value in events && r.value.start <= now <= r.value.end
    ensures r.None? <==> forall e :: e in events ==> !(e.start <= now <= e.end)
  {
    if events == [] then None
    else if events[0].start <= now <= events[0].end then Some(events[0])
    else Current(events[1..], now)
  }

  /** The event with the least start after `now`; among equal starts, the first in the table. */
  function Next(events: seq<Event>, now: int): (r: Option<Event>)
    ensures r.Some? ==> r.value in events && r.value.start > now
    ensures r.Some? ==> forall e :: e in events && e.start > now ==> r.value.start <= e.start
    ensures r.None? <==> forall e :: e in events ==> e.start <= now
  {
    if events == [] then None
    else
      var rest := Next(events[1..], now);
      var e := events[0];
      if e.start > now && (rest.None? || e.start <= rest.value.start) then Some(e) else rest
  }

  /** `set_icon_or_text`: a missing icon becomes the pin, an image path an image, anything else text. */
  function IconChoice(data: string): (v: IconView)
    ensures v.Image? <==> IsImage(data)
    ensures v.Image? ==> v.path == data
    ensures v.Text? ==> v.text == (if data == [] then "📍" else data)
  {
    var d := if data == [] then "📍" else data;
    if IsImage(d) then Image(d) else Text(d)
  }

  /** The dashboard's now and next panels. */
  class Dashboard {
    var nowIcon: IconView
    var nowTitle: string
    var nextIcon: IconView
    var nextTitle: string

    constructor()
      ensures nowTitle == [] && nextTitle == []
    {
      nowIcon, nowTitle, nextIcon, nextTitle := Text([]), [], Text([]), [];
    }

    /**
     * `update_now_next`: the current event or free time with the pin, and
     * the next event or "All Done!" with the tick.
     */
    method UpdateNowNext(events: seq<Event>, now: int)
      modifies this
      ensures var c := Current(events, now);
        nowTitle == (if c.Some? then c.value.title else "Free Time") &&
        nowIcon == IconChoice(if c.Some? then c.value.icon else "📍")
      ensures var n := Next(events, now);
        nextTitle == (if n.Some? then n.value.title else "All Done!") &&
        nextIcon == IconChoice(if n.Some? then n.value.icon else "✅")
    {
      var c := Current(events, now);
      nowIcon := IconChoice(if c.Some? then c.value.icon else "📍");
      nowTitle := if c.Some? then c.value.title else "Free Time";
      var n := Next(events, now);
      nextIcon := IconChoice(if n.Some? then n.value.icon else "✅");
      nextTitle := if n.Some? then n.value.title else "All Done!";
    }

    /**
     * `on_enter`: entering the dashboard fills in now and next at once; the
     * clock labels and the one-second refresh timer are not modelled.
     */
    method OnEnter(events: seq<Event>, now: int)
      modifies this
      ensures var c := Current(events, now);
        nowTitle == (if c.Some? then c.value.title else "Free Time") &&
        nowIcon == IconChoice(if c.Some? then c.value.icon else "📍")
      ensures var n := Next(events, now);
        nextTitle == (if n.Some? then n.value.title else "All Done!") &&
        nextIcon == IconChoice(if n.Some? then n.value.icon else "✅")
    {
      UpdateNowNext(events, now);
    }
  }
}
