/** The trading calendar: sessions, their 60-minute grid, and the search that places an instant on it. */
module CalendarModel {
  import opened Domain

  datatype Calendar = Calendar(holidays: set<int>, earlyCloses: map<int, int>)

  datatype Session = Session(start: int, end: int)

  /** A contract's session times of day; the night session is optional. */
  datatype Entry = Entry(day: Session, night: Option<Session>)
  {
    predicate Valid() {
      TimesOfDay(day) && (night.Some? ==> TimesOfDay(night.value))
    }
  }

  predicate TimesOfDay(s: Session) {
    0 <= s.start < DAY && 0 <= s.end < DAY
  }

  datatype Cell = Cell(open: int, close: int)
  datatype Boundary = Boundary(start: int, end: int, tradingDay: int, session: MarketSession)

  /** Dates count from 1970-01-01, a Thursday; Monday is 0. */
  function Weekday(d: int): int {
    (d + 3) % 7
  }

  predicate IsTradingDay(cal: Calendar, d: int) {
    Weekday(d) < 5 && d !in cal.holidays
  }

  function SessionEndFor(cal: Calendar, d: int, baseEnd: int): int {
    if d in cal.earlyCloses && cal.earlyCloses[d] < baseEnd then cal.earlyCloses[d] else baseEnd
  }

  /** The instants of a session: an early close shortens it unless it crosses midnight. */
  function Window(cal: Calendar, d: int, s: Session): Cell {
    var wraps := s.end <= s.start;
    Cell(d * DAY + s.start, if wraps then (d + 1) * DAY + s.end else d * DAY + SessionEndFor(cal, d, s.end))
  }

  predicate In(cell: Cell, t: int) {
    cell.open <= t < cell.close
  }

  /** Hour by hour from `from` to `end`; the last piece may be shorter. */
  function Grid(from: int, end: int): seq<Cell>
    decreases end - from
  {
    if from >= end then []
    else
      var close := if from + HOUR < end then from + HOUR else end;
      [Cell(from, close)] + Grid(close, end)
  }

  function BarBoundaries(cal: Calendar, d: int, s: Session): seq<Cell> {
    var w := Window(cal, d, s);
    Grid(w.open, w.close)
  }

  function SessionsOf(entry: Entry): seq<Session> {
    if entry.night.Some? then [entry.day, entry.night.value] else [entry.day]
  }

  function SessionName(k: nat): MarketSession {
    if k == 0 then DaySession else NightSession
  }

  /** What the search looks for: a piece containing the instant, or one that opens exactly at it. */
  predicate Hits(cell: Cell, t: int, exact: bool) {
    if exact then cell.open == t else In(cell, t)
  }

  function FirstHit(cells: seq<Cell>, t: int, exact: bool): (r: Option<nat>)
    ensures r.Some? ==> r.value < |cells| && Hits(cells[r.value], t, exact)
    ensures r.None? ==> forall i | 0 <= i < |cells| :: !Hits(cells[i], t, exact)
  {
    if cells == [] then None
    else if Hits(cells[0], t, exact) then Some(0)
    else
      var rest := FirstHit(cells[1..], t, exact);
      if rest.None? then None else Some(rest.value + 1)
  }

  function SearchSessions(cal: Calendar, entry: Entry, d: int, t: int, exact: bool, k: nat): Option<Boundary>
    requires k <= |SessionsOf(entry)|
    decreases |SessionsOf(entry)| - k
  {
    if k == |SessionsOf(entry)| then None
    else
      var cells := BarBoundaries(cal, d, SessionsOf(entry)[k]);
      var hit := FirstHit(cells, t, exact);
      if hit.Some? then Some(Boundary(cells[hit.value].open, cells[hit.value].close, d, SessionName(k)))
      else SearchSessions(cal, entry, d, t, exact, k + 1)
  }

  /** Yesterday, today, tomorrow. */
  function SearchDays(cal: Calendar, entry: Entry, t: int, exact: bool, offset: int): Option<Boundary>
    requires offset >= -1
    decreases 2 - offset
  {
    if offset > 1 then None
    else
      var d := DateOf(t) + offset;
      var found := if IsTradingDay(cal, d) then SearchSessions(cal, entry, d, t, exact, 0) else None;
      if found.Some? then found else SearchDays(cal, entry, t, exact, offset + 1)
  }

  function BoundaryContaining(cal: Calendar, entry: Entry, t: int): Option<Boundary> {
    SearchDays(cal, entry, t, false, -1)
  }

  datatype Context = Context(tradingDay: int, session: MarketSession)

  function SessionContextFor(cal: Calendar, entry: Entry, openLabel: int): Option<Context> {
    var found := SearchDays(cal, entry, openLabel, true, -1);
    if found.None? then None else Some(Context(found.value.tradingDay, found.value.session))
  }
}

module TradingCalendar {
  import opened Domain
  import opened CalendarModel

  method ListBoundaries(cal: Calendar, d: int, s: Session) returns (boundaries: seq<Cell>)
    ensures boundaries == BarBoundaries(cal, d, s)
  {
    var w := Window(cal, d, s);
    boundaries := [];
    var cursor := w.open;
    while cursor < w.close
      invariant boundaries + Grid(cursor, w.close) == Grid(w.open, w.close)
    {
      var close := if cursor + HOUR < w.close then cursor + HOUR else w.close;
      assert boundaries + ([Cell(cursor, close)] + Grid(close, w.close)) == (boundaries + [Cell(cursor, close)])
          + Grid(close, w.close);
      boundaries := boundaries + [Cell(cursor, close)];
      cursor := close;
    }
    assert boundaries + [] == boundaries;
  }

  /** The nested search over days, sessions and pieces, for either lookup. */
  method FindBoundary(cal: Calendar, entry: Entry, t: int, exact: bool) returns (r: Option<Boundary>)
    ensures r == SearchDays(cal, entry, t, exact, -1)
  {
    var offset := -1;
    while offset <= 1
      invariant -1 <= offset <= 2
      invariant SearchDays(cal, entry, t, exact, -1) == SearchDays(cal, entry, t, exact, offset)
    {
      var d := DateOf(t) + offset;
      if IsTradingDay(cal, d) {
        r := FindInDay(cal, entry, d, t, exact);
        if r.Some? {
          return;
        }
      }
      offset := offset + 1;
    }
    r := None;
  }

  method FindInDay(cal: Calendar, entry: Entry, d: int, t: int, exact: bool) returns (r: Option<Boundary>)
    ensures r == SearchSessions(cal, entry, d, t, exact, 0)
  {
    var sessions := SessionsOf(entry);
    for k := 0 to |sessions|
      invariant SearchSessions(cal, entry, d, t, exact, 0) == SearchSessions(cal, entry, d, t, exact, k)
    {
      var cells := ListBoundaries(cal, d, sessions[k]);
      ghost var hit := FirstHit(cells, t, exact);
      for i := 0 to |cells|
        invariant forall j | 0 <= j < i :: !Hits(cells[j], t, exact)
      {
        if Hits(cells[i], t, exact) {
          FirstIs(cells, t, exact, i);
          return Some(Boundary(cells[i].open, cells[i].close, d, SessionName(k)));
        }
      }
    }
    r := None;
  }

  lemma {:induction false} FirstIs(cells: seq<Cell>, t: int, exact: bool, i: nat)
    requires i < |cells| && Hits(cells[i], t, exact) && forall j | 0 <= j < i :: !Hits(cells[j], t, exact)
    ensures FirstHit(cells, t, exact) == Some(i)
  {
    if i > 0 {
      FirstIs(cells[1..], t, exact, i - 1);
    }
  }
}

/** What the grid and the search guarantee. */
module CalendarProofs {
  import opened Domain
  import opened CalendarModel

  /** The grid cuts a window into contiguous pieces of at most one hour, all but the last exactly one. */
  lemma {:induction false} GridPartitions(from: int, end: int)
    requires from < end
    ensures var g := Grid(from, end);
            && |g| > 0 && g[0].open == from && g[|g| - 1].close == end
            && (forall i | 0 <= i < |g| :: from <= g[i].open < g[i].close <= end && g[i].close - g[i].open <= HOUR)
            && (forall i | 0 <= i < |g| - 1 :: g[i].close - g[i].open == HOUR && g[i + 1].open == g[i].close)
    decreases end - from
  {
    var close := if from + HOUR < end then from + HOUR else end;
    if close < end {
      GridPartitions(close, end);
    } else {
      assert Grid(close, end) == [];
    }
  }

  /** Each instant of the window lies in exactly one piece. */
  lemma {:induction false} GridCovers(from: int, end: int, t: int)
    ensures In(Cell(from, end), t) <==> exists i :: 0 <= i < |Grid(from, end)| && In(Grid(from, end)[i], t)
    ensures forall i, j | 0 <= i < j < |Grid(from, end)| :: Grid(from, end)[i].close <= Grid(from, end)[j].open
    decreases end - from
  {
    if from < end {
      var close := if from + HOUR < end then from + HOUR else end;
      var rest, g := Grid(close, end), Grid(from, end);
      GridCovers(close, end, t);
      GridBounds(close, end);
      assert g == [Cell(from, close)] + rest;
      if In(Cell(from, close), t) {
        assert In(g[0], t);
      } else if In(Cell(close, end), t) {
        var i :| 0 <= i < |rest| && In(rest[i], t);
        assert In(g[i + 1], t);
      }
      forall i | 0 <= i < |g| && In(g[i], t) ensures In(Cell(from, end), t) {
        if i > 0 {
          assert In(rest[i - 1], t);
        }
      }
    }
  }

  lemma {:induction false} GridBounds(from: int, end: int)
    ensures forall i | 0 <= i < |Grid(from, end)| ::
              from <= Grid(from, end)[i].open < Grid(from, end)[i].close <= end
    decreases end - from
  {
    if from < end {
      GridBounds(if from + HOUR < end then from + HOUR else end, end);
    }
  }

  /** An instant of the k-th session of a trading day. */
  ghost predicate Within(cal: Calendar, entry: Entry, d: int, k: nat, t: int) {
    IsTradingDay(cal, d) && k < |SessionsOf(entry)| && In(Window(cal, d, SessionsOf(entry)[k]), t)
  }

  /** A session reaches at most into the next calendar day. */
  lemma WindowDates(cal: Calendar, entry: Entry, d: int, k: nat, t: int)
    requires entry.Valid() && Within(cal, entry, d, k, t)
    ensures DateOf(t) - 1 <= d <= DateOf(t)
  {
    var s := SessionsOf(entry)[k];
    assert TimesOfDay(s);
    assert d * DAY <= t < (d + 2) * DAY;
  }

  /** The piece a search returns is one of its day's and session's grid. */
  ghost predicate Found(cal: Calendar, entry: Entry, b: Boundary, t: int, exact: bool, k: nat) {
    && IsTradingDay(cal, b.tradingDay) && k < |SessionsOf(entry)| && b.session == SessionName(k)
    && Cell(b.start, b.end) in BarBoundaries(cal, b.tradingDay, SessionsOf(entry)[k])
    && Hits(Cell(b.start, b.end), t, exact)
  }

  lemma {:induction false} SessionsSearched(cal: Calendar, entry: Entry, d: int, t: int, exact: bool, from: nat)
    requires IsTradingDay(cal, d) && from <= |SessionsOf(entry)|
    ensures var r := SearchSessions(cal, entry, d, t, exact, from);
            && (r.Some? ==> r.value.tradingDay == d && exists k: nat ::
                  from <= k && Found(cal, entry, r.value, t, exact, k))
            && (r.None? ==> forall k, c | from <= k < |SessionsOf(entry)|
                && c in BarBoundaries(cal, d, SessionsOf(entry)[k]) ::
                              !Hits(c, t, exact))
    decreases |SessionsOf(entry)| - from
  {
    hide BarBoundaries;
    if from < |SessionsOf(entry)| {
      SessionsSearched(cal, entry, d, t, exact, from + 1);
      var r := SearchSessions(cal, entry, d, t, exact, from);
      var cells := BarBoundaries(cal, d, SessionsOf(entry)[from]);
      var hit := FirstHit(cells, t, exact);
      if hit.Some? {
        assert cells[hit.value] == Cell(r.value.start, r.value.end);
        assert Found(cal, entry, r.value, t, exact, from);
      }
    }
  }

  lemma {:induction false} DaysSearched(cal: Calendar, entry: Entry, t: int, exact: bool, offset: int)
    requires offset >= -1
    ensures var r := SearchDays(cal, entry, t, exact, offset);
            && (r.Some? ==> exists k: nat :: Found(cal, entry, r.value, t, exact, k))
            && (r.None? ==> forall d, k, c | DateOf(t) + offset <= d <= DateOf(t) + 1 && IsTradingDay(cal, d)
                                             && 0 <= k < |SessionsOf(entry)|
                                                 && c in BarBoundaries(cal, d, SessionsOf(entry)[k]) ::
                              !Hits(c, t, exact))
    decreases 2 - offset
  {
    hide BarBoundaries, SearchSessions, IsTradingDay, DateOf;
    if offset <= 1 {
      var d := DateOf(t) + offset;
      if IsTradingDay(cal, d) {
        SessionsSearched(cal, entry, d, t, exact, 0);
      }
      DaysSearched(cal, entry, t, exact, offset + 1);
    }
  }

  /** The search over yesterday, today and tomorrow is complete: an instant has a boundary exactly when it
      lies in some session of some trading day, and the boundary is a piece of such a session around it. */
  lemma ContainingIsComplete(cal: Calendar, entry: Entry, t: int)
    requires entry.Valid()
    ensures var r := BoundaryContaining(cal, entry, t);
            && (r.Some? <==> exists d, k: nat :: Within(cal, entry, d, k, t))
            && (r.Some? ==> r.value.start <= t < r.value.end <= r.value.start + HOUR
                            && exists k: nat :: Found(cal, entry, r.value, t, false, k)
                                && Within(cal, entry, r.value.tradingDay, k, t))
  {
    var r := BoundaryContaining(cal, entry, t);
    DaysSearched(cal, entry, t, false, -1);
    if r.Some? {
      var k: nat :| Found(cal, entry, r.value, t, false, k);
      var w := Window(cal, r.value.tradingDay, SessionsOf(entry)[k]);
      var g := Grid(w.open, w.close);
      var i :| 0 <= i < |g| && g[i] == Cell(r.value.start, r.value.end);
      GridCovers(w.open, w.close, t);
      assert In(g[i], t);
      if w.open < w.close {
        GridPartitions(w.open, w.close);
      }
      assert Within(cal, entry, r.value.tradingDay, k, t);
    }
    forall d, k: nat | Within(cal, entry, d, k, t) ensures r.Some? {
      WindowDates(cal, entry, d, k, t);
      var w := Window(cal, d, SessionsOf(entry)[k]);
      GridCovers(w.open, w.close, t);
      var i :| 0 <= i < |Grid(w.open, w.close)| && In(Grid(w.open, w.close)[i], t);
      var c := Grid(w.open, w.close)[i];
      assert c in BarBoundaries(cal, d, SessionsOf(entry)[k]) && Hits(c, t, false);
    }
  }

  // ---- sessions that do not overlap ----

  ghost predicate NonOverlapping(cal: Calendar, entry: Entry) {
    forall d, k: nat, d', k': nat, t :: Within(cal, entry, d, k, t) && Within(cal, entry, d', k', t) ==>
        d == d' && k == k'
  }

  /** Every instant of a piece of a session's grid is an instant of that session. */
  lemma PieceWithin(cal: Calendar, entry: Entry, b: Boundary, t: int, exact: bool, k: nat, u: int)
    requires Found(cal, entry, b, t, exact, k) && b.start <= u < b.end
    ensures Within(cal, entry, b.tradingDay, k, u)
  {
    var w := Window(cal, b.tradingDay, SessionsOf(entry)[k]);
    var g := Grid(w.open, w.close);
    var i :| 0 <= i < |g| && g[i] == Cell(b.start, b.end);
    GridBounds(w.open, w.close);
  }

  lemma FoundIsNonEmpty(cal: Calendar, entry: Entry, b: Boundary, t: int, exact: bool, k: nat)
    requires Found(cal, entry, b, t, exact, k)
    ensures b.start < b.end
  {
    var w := Window(cal, b.tradingDay, SessionsOf(entry)[k]);
    GridBounds(w.open, w.close);
  }

  /** The boundary's open label leads back to the same trading day and session. */
  lemma ContextAgrees(cal: Calendar, entry: Entry, t: int)
    requires entry.Valid() && NonOverlapping(cal, entry)
    ensures var r := BoundaryContaining(cal, entry, t);
            r.Some? ==>
                SessionContextFor(cal, entry, r.value.start) == Some(Context(r.value.tradingDay, r.value.session))
  {
    var r := BoundaryContaining(cal, entry, t);
    if r.Some? {
      var b := r.value;
      DaysSearched(cal, entry, t, false, -1);
      var k: nat :| Found(cal, entry, b, t, false, k);
      FoundIsNonEmpty(cal, entry, b, t, false, k);
      PieceWithin(cal, entry, b, t, false, k, b.start);
      WindowDates(cal, entry, b.tradingDay, k, b.start);
      DaysSearched(cal, entry, b.start, true, -1);
      var c := Cell(b.start, b.end);
      assert c in BarBoundaries(cal, b.tradingDay, SessionsOf(entry)[k]) && Hits(c, b.start, true);
      var again := SearchDays(cal, entry, b.start, true, -1);
      assert again.Some?;
      var k': nat :| Found(cal, entry, again.value, b.start, true, k');
      FoundIsNonEmpty(cal, entry, again.value, b.start, true, k');
      PieceWithin(cal, entry, again.value, b.start, true, k', b.start);
    }
  }

  /** Two boundaries are the same or disjoint, so the search is a grid over all time. */
  lemma BoundariesFormGrid(cal: Calendar, entry: Entry, t: int, u: int)
    requires entry.Valid() && NonOverlapping(cal, entry)
    ensures var a, b := BoundaryContaining(cal, entry, t), BoundaryContaining(cal, entry, u);
            a.Some? && b.Some? ==> a == b || a.value.end <= b.value.start || b.value.end <= a.value.start
  {
    var a, b := BoundaryContaining(cal, entry, t), BoundaryContaining(cal, entry, u);
    if a.Some? && b.Some? && a.value.end > b.value.start && b.value.end > a.value.start {
      DaysSearched(cal, entry, t, false, -1);
      DaysSearched(cal, entry, u, false, -1);
      var k: nat :| Found(cal, entry, a.value, t, false, k);
      var k': nat :| Found(cal, entry, b.value, u, false, k');
      var shared := if a.value.start < b.value.start then b.value.start else a.value.start;
      PieceWithin(cal, entry, a.value, t, false, k, shared);
      PieceWithin(cal, entry, b.value, u, false, k', shared);
      var w := Window(cal, a.value.tradingDay, SessionsOf(entry)[k]);
      var g := Grid(w.open, w.close);
      GridCovers(w.open, w.close, shared);
      var i :| 0 <= i < |g| && g[i] == Cell(a.value.start, a.value.end);
      var j :| 0 <= j < |g| && g[j] == Cell(b.value.start, b.value.end);
      assert i == j;
    }
  }
}
