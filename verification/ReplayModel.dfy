/** Replaying recorded history through the engine: what is fed, in which order, and the skip over
    recorded trades that cannot matter. */
module ReplayModel {
  import opened Domain
  import opened EngineModel

  /** One persisted match of a contract. */
  datatype Print = Print(at: int, price: real)

  predicate Sorted(prints: seq<Print>) {
    forall i, j | 0 <= i <= j < |prints| :: prints[i].at <= prints[j].at
  }

  /** The persisted matches of one contract, in tape order. */
  type Tape = prints: seq<Print> | Sorted(prints)

  /** Where a search resumes: at an instant, or just after a print. */
  datatype Cursor = From(t: int) | After(index: nat)

  predicate OnTape(tape: Tape, c: Cursor) {
    c.After? ==> c.index < |tape|
  }

  function CursorTime(tape: Tape, c: Cursor): int
    requires OnTape(tape, c)
  {
    match c
    case From(t) => t
    case After(i) => tape[i].at
  }

  /** The index of the first print at or after `t`. */
  function LowerBound(tape: Tape, t: int, from: nat := 0): (r: nat)
    requires from <= |tape| && forall i | 0 <= i < from :: tape[i].at < t
    ensures from <= r <= |tape|
    ensures forall i | 0 <= i < r :: tape[i].at < t
    ensures forall i | r <= i < |tape| :: tape[i].at >= t
    decreases |tape| - from
  {
    if from < |tape| && tape[from].at < t then LowerBound(tape, t, from + 1) else from
  }

  /** The first print a search from this cursor may return. */
  function Next(tape: Tape, c: Cursor): (r: nat)
    requires OnTape(tape, c)
    ensures r <= |tape|
  {
    match c
    case From(t) => LowerBound(tape, t)
    case After(i) => i + 1
  }

  lemma NextAdvances(tape: Tape, c: Cursor, t: int)
    requires OnTape(tape, c) && CursorTime(tape, c) < t
    ensures Next(tape, From(t)) >= Next(tape, c)
  {
    var later := LowerBound(tape, t);
    assert later < |tape| ==> tape[later].at >= t;
  }

  predicate Beyond(band: Band, price: real) {
    price <= band.low || price >= band.high
  }

  /** The earliest print from index `i`, before `before`, that leaves the open band. */
  function FirstBeyond(tape: Tape, i: nat, before: int, band: Band): (r: Option<nat>)
    requires i <= |tape|
    ensures r.Some? ==> i <= r.value < |tape| && tape[r.value].at < before && Beyond(band, tape[r.value].price)
    ensures forall k | i <= k < (if r.Some? then r.value else LowerBound(tape, before)) :: !Beyond(band, tape[k].price)
    decreases |tape| - i
  {
    if i == |tape| || tape[i].at >= before then None
    else if Beyond(band, tape[i].price) then Some(i)
    else FirstBeyond(tape, i + 1, before, band)
  }

  /** The latest print the cursor admits at or before `at`. */
  function LastAtOrBefore(tape: Tape, c: Cursor, at: int): (r: Option<nat>)
    requires OnTape(tape, c)
    ensures r.Some? ==> Next(tape, c) <= r.value < |tape| && tape[r.value].at <= at
    ensures forall k | Next(tape, c) <= k < |tape| && tape[k].at <= at :: r.Some? && k <= r.value
  {
    var end := LowerBound(tape, at + 1);
    if end > Next(tape, c) then Some(end - 1) else None
  }

  datatype BarRecord = BarRecord(bar: Bar, complete: bool)

  datatype HistoricalTrade = HistoricalTrade(record: BarRecord, decision: Decision, side: Side, quantity: int)

  datatype Fed = Fed(state: State, trades: seq<HistoricalTrade>)

  function SideOf(d: Decision): Side {
    match d.signal
    case Some(ExitAll) => if d.side == Long then Sell else Buy
    case Some(EnterLong) => Buy
    case _ => Sell
  }

  /** A passed signal becomes a trade and is assumed filled at once, at the signal's price. */
  function Accept(s: State, record: BarRecord, d: Decision): Fed {
    if !d.passed || d.signal.None? || d.price.None? then Fed(s, [])
    else
      var quantity := if d.signal == Some(ExitAll) then d.lots else MAX_LOTS;
      Fed(OnFill(s, SideOf(d), d.price.value, quantity, d.at), [HistoricalTrade(record, d, SideOf(d), quantity)])
  }

  /** One recorded trade, evaluated as the live service would. */
  function FeedOne(cfg: Config, s: State, record: BarRecord, price: real, at: int): Fed
    requires cfg.Usable()
  {
    var o := OnTrade(cfg, s, price, at, false, false);
    Accept(o.state, record, o.decision)
  }

  /** The simple form: every recorded trade from index `i` up to `j`, in order. */
  function Feed(cfg: Config, s: State, record: BarRecord, tape: Tape, i: nat, j: nat): Fed
    requires cfg.Usable() && i <= j <= |tape|
    decreases j - i
  {
    if i == j then Fed(s, [])
    else
      var first := FeedOne(cfg, s, record, tape[i].price, tape[i].at);
      var rest := Feed(cfg, first.state, record, tape, i + 1, j);
      Fed(rest.state, first.trades + rest.trades)
  }

  datatype Exits = Exits(state: State, trades: seq<HistoricalTrade>, cursor: Cursor)

  predicate ReachesStop(side: PositionSide, bar: Bar, stop: real) {
    if side == Long then bar.low <= stop else bar.high >= stop
  }

  /** Where a bar that reached the stop without a recorded trade is taken to have filled. */
  function StopFillPrice(side: PositionSide, bar: Bar, stop: real): real {
    if side == Long then (if bar.open < stop then bar.open else stop)
    else (if bar.open > stop then bar.open else stop)
  }

  /** After the last hit: a bar that reached the stop with no trade recorded fills at the stop. */
  function UnrecordedStop(cfg: Config, s: State, record: BarRecord, start: int, before: int): Fed
    requires cfg.Usable()
  {
    var stop := StopLossPrice(cfg, s);
    if start >= record.bar.start && stop.Some? && ReachesStop(s.side, record.bar, stop.value)
    then FeedOne(cfg, s, record, StopFillPrice(s.side, record.bar, stop.value), before)
    else Fed(s, [])
  }

  /** The range check that lets a whole bar be skipped. */
  predicate BarInside(bar: Bar, band: Band) {
    bar.low > band.low && bar.high < band.high
  }

  function WindowEnd(bar: Bar, start: int, before: int): int {
    if start < bar.start && bar.start < before then bar.start else before
  }

  /** The fast form: jump from one trade outside the watch band to the next. */
  function TradeExits(cfg: Config, s: State, record: BarRecord, tape: Tape, c: Cursor, before: int): (r: Exits)
    requires cfg.Usable() && OnTape(tape, c)
    ensures OnTape(tape, r.cursor)
    decreases |tape| - Next(tape, c), if CursorTime(tape, c) < record.bar.start then 1 else 0
  {
    var band, start, bar := ExitWatchPrices(cfg, s), CursorTime(tape, c), record.bar;
    if band.None? || (start >= bar.start && BarInside(bar, band.value)) then Exits(s, [], c)
    else
      var windowEnd := WindowEnd(bar, start, before);
      var hit := FirstBeyond(tape, Next(tape, c), windowEnd, band.value);
      if hit.Some? then
        var fed := FeedOne(cfg, s, record, tape[hit.value].price, tape[hit.value].at);
        var rest := TradeExits(cfg, fed.state, record, tape, After(hit.value), before);
        Exits(rest.state, fed.trades + rest.trades, rest.cursor)
      else if windowEnd < before then
        NextAdvances(tape, c, windowEnd);
        TradeExits(cfg, s, record, tape, From(windowEnd), before)
      else
        var fed := UnrecordedStop(cfg, s, record, start, before);
        Exits(fed.state, fed.trades, c)
  }

  // ---- between two closes ----

  predicate OnMaybeTape(tape: Option<Tape>, c: Cursor) {
    tape.Some? ==> OnTape(tape.value, c)
  }

  function MaybeExits(cfg: Config, s: State, record: BarRecord, tape: Option<Tape>, c: Cursor, before: int): (r: Exits)
    requires cfg.Usable() && OnMaybeTape(tape, c)
    ensures OnMaybeTape(tape, r.cursor)
  {
    if tape.None? then Exits(s, [], c) else TradeExits(cfg, s, record, tape.value, c, before)
  }

  /** Prices the flatten at the last recorded trade the cursor still admits. */
  function LastTrade(cfg: Config, s: State, record: BarRecord, tape: Option<Tape>, c: Cursor, tick: int): (r: Exits)
    requires cfg.Usable() && OnMaybeTape(tape, c)
    ensures OnMaybeTape(tape, r.cursor)
  {
    if tape.None? || s.side == Flat then Exits(s, [], c)
    else
      var last := LastAtOrBefore(tape.value, c, tick);
      if last.None? then Exits(s, [], c)
      else
        var hit := tape.value[last.value];
        var fed := FeedOne(cfg, s, record, hit.price, hit.at);
        Exits(fed.state, fed.trades, After(last.value))
  }

  function Clock(cfg: Config, s: State, previous: BarRecord, tick: int): Fed
    requires cfg.Usable()
  {
    var o := OnTick(cfg, s, tick, false, false);
    Accept(o.state, previous, o.decision)
  }

  /** The 04:55 instant of a day: trades before it, the last trade, then the clock. */
  function AtTick(cfg: Config, s: State, previous: BarRecord, record: BarRecord, tape: Option<Tape>, c: Cursor,
                  tick: int): (r: Exits)
    requires cfg.Usable() && OnMaybeTape(tape, c)
    ensures OnMaybeTape(tape, r.cursor)
  {
    var a := MaybeExits(cfg, s, record, tape, c, tick);
    var b := LastTrade(cfg, a.state, record, tape, a.cursor, tick);
    var clock := Clock(cfg, b.state, previous, tick);
    Exits(clock.state, a.trades + b.trades + clock.trades, b.cursor)
  }

  function TickOf(cfg: Config, day: int): int {
    day * DAY + cfg.eodFlatten
  }

  function Days(cfg: Config, s: State, previous: BarRecord, record: BarRecord, tape: Option<Tape>, c: Cursor,
                day: int): (r: Exits)
    requires cfg.Usable() && OnMaybeTape(tape, c)
    ensures OnMaybeTape(tape, r.cursor)
    decreases DateOf(record.bar.end) - day
  {
    if day > DateOf(record.bar.end) then Exits(s, [], c)
    else
      var tick := TickOf(cfg, day);
      var now := if previous.bar.end < tick <= record.bar.end then AtTick(cfg, s, previous, record, tape, c, tick)
                 else Exits(s, [], c);
      var rest := Days(cfg, now.state, previous, record, tape, now.cursor, day + 1);
      Exits(rest.state, now.trades + rest.trades, rest.cursor)
  }

  function BetweenCloses(cfg: Config, s: State, previous: BarRecord, record: BarRecord, tape: Option<Tape>): Fed
    requires cfg.Usable()
  {
    var days := Days(cfg, s, previous, record, tape, From(previous.bar.end), DateOf(previous.bar.end));
    var last := MaybeExits(cfg, days.state, record, tape, days.cursor, record.bar.end);
    Fed(last.state, days.trades + last.trades)
  }

  function Close(cfg: Config, s: State, record: BarRecord): Fed
    requires cfg.Usable()
  {
    var o := OnBar(cfg, s, record.bar, record.complete, false, false);
    Accept(o.state, record, o.decision)
  }

  // ---- the whole replay ----

  type Tapes = Option<string -> Tape>

  datatype Replay = Replay(engine: Option<State>, previous: Option<BarRecord>, trades: seq<HistoricalTrade>,
                           review: seq<BarRecord>)

  const NOTHING_REPLAYED := Replay(None, None, [], [])

  predicate IsOpen(engine: Option<State>) {
    engine.Some? && engine.value.side != Flat
  }

  /** Another instrument or another contract forgets everything but the trades. */
  function SwitchContract(r: Replay, record: BarRecord): Replay {
    if record.bar.instrument != Mxf || (r.previous.Some? && r.previous.value.bar.contract != record.bar.contract)
    then r.(engine := None, previous := None, review := []) else r
  }

  /** Unknown data restarts the warm-up; it restarts the replay itself only while flat. */
  function AfterHole(r: Replay, record: BarRecord, nextClose: int -> int): Replay {
    if !record.complete || (r.previous.Some? && nextClose(r.previous.value.bar.end) != record.bar.end) then
      if IsOpen(r.engine) then r.(engine := Some(ResetHistory(r.engine.value)), review := [])
      else r.(engine := None, previous := None, review := [])
    else r
  }

  function TapeFor(tapes: Tapes, record: BarRecord): Option<Tape> {
    if tapes.None? then None else Some(tapes.value(record.bar.contract))
  }

  /** The trades up to and including a record's close. */
  function Through(cfg: Config, r: Replay, record: BarRecord, tapes: Tapes): Fed
    requires cfg.Usable()
  {
    var s := if r.engine.Some? then r.engine.value else Fresh(record.bar.instrument, record.bar.contract);
    var between := if r.previous.Some? then BetweenCloses(cfg, s, r.previous.value, record, TapeFor(tapes, record))
                   else Fed(s, []);
    var closed := Close(cfg, between.state, record);
    Fed(closed.state, between.trades + closed.trades)
  }

  function ReplayRecord(cfg: Config, r0: Replay, record: BarRecord, nextClose: int -> int, tapes: Tapes): Replay
    requires cfg.Usable()
  {
    var switched := SwitchContract(r0, record);
    if record.bar.instrument != Mxf then switched
    else
      var r := AfterHole(switched, record, nextClose);
      if !record.complete && r.engine.None? then r
      else
        var fed := Through(cfg, r, record, tapes);
        if record.complete then Replay(Some(fed.state), Some(record), r.trades + fed.trades, r.review + [record])
        else Replay(Some(ResetHistory(fed.state)), Some(record), r.trades + fed.trades, r.review)
  }

  function ReplayAll(cfg: Config, records: seq<BarRecord>, nextClose: int -> int, tapes: Tapes): Replay
    requires cfg.Usable()
  {
    if records == [] then NOTHING_REPLAYED
    else ReplayRecord(cfg, ReplayAll(cfg, records[..|records| - 1], nextClose, tapes), records[|records| - 1],
        nextClose, tapes)
  }
}
