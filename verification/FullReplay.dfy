/** The reference replay feeds every recorded trade, and the replay that skips finds the same history. */
module FullReplay {
  import opened Domain
  import opened EngineModel
  import opened EngineProofs
  import opened ReplayModel
  import opened SkipProofs
  import opened SkipExact
  import opened ReplayProofs
  import opened ReplayLog
  import opened ReplayPricing

  // ---- the reference ----

  /** Every trade before the 04:55 instant, the last one exactly at it, then the clock. */
  function FullTick(cfg: Config, s: State, previous: BarRecord, record: BarRecord, tape: Tape, from: int,
                    tick: int): Fed
    requires cfg.Usable()
  {
    var a := Fully(cfg, s, record, tape, From(from), tick);
    var b := LastTrade(cfg, a.state, record, Some(tape), From(tick), tick);
    var clock := Clock(cfg, b.state, previous, tick);
    Fed(clock.state, a.trades + b.trades + clock.trades)
  }

  datatype FedUpTo = FedUpTo(state: State, trades: seq<HistoricalTrade>, upTo: int)

  function FullDays(cfg: Config, s: State, previous: BarRecord, record: BarRecord, tape: Tape, from: int,
                    day: int): FedUpTo
    requires cfg.Usable()
    decreases DateOf(record.bar.end) - day
  {
    if day > DateOf(record.bar.end) then FedUpTo(s, [], from)
    else
      var tick := TickOf(cfg, day);
      if !(previous.bar.end < tick <= record.bar.end) then FullDays(cfg, s, previous, record, tape, from, day + 1)
      else
        var now := FullTick(cfg, s, previous, record, tape, from, tick);
        var rest := FullDays(cfg, now.state, previous, record, tape, tick, day + 1);
        FedUpTo(rest.state, now.trades + rest.trades, rest.upTo)
  }

  function FullBetween(cfg: Config, s: State, previous: BarRecord, record: BarRecord, tape: Tape): Fed
    requires cfg.Usable()
  {
    var days := FullDays(cfg, s, previous, record, tape, previous.bar.end, DateOf(previous.bar.end));
    var last := Fully(cfg, days.state, record, tape, From(days.upTo), record.bar.end);
    Fed(last.state, days.trades + last.trades)
  }

  function FullThrough(cfg: Config, r: Replay, record: BarRecord, tapes: Tapes): Fed
    requires cfg.Usable()
  {
    var s := if r.engine.Some? then r.engine.value else Fresh(record.bar.instrument, record.bar.contract);
    var between := if r.previous.None? then Fed(s, [])
                   else if tapes.None? then BetweenCloses(cfg, s, r.previous.value, record, None)
                   else FullBetween(cfg, s, r.previous.value, record, tapes.value(record.bar.contract));
    var closed := Close(cfg, between.state, record);
    Fed(closed.state, between.trades + closed.trades)
  }

  function FullRecord(cfg: Config, r0: Replay, record: BarRecord, nextClose: int -> int, tapes: Tapes): Replay
    requires cfg.Usable()
  {
    var switched := SwitchContract(r0, record);
    if record.bar.instrument != Mxf then switched
    else
      var r := AfterHole(switched, record, nextClose);
      if !record.complete && r.engine.None? then r
      else
        var fed := FullThrough(cfg, r, record, tapes);
        if record.complete then Replay(Some(fed.state), Some(record), r.trades + fed.trades, r.review + [record])
        else Replay(Some(ResetHistory(fed.state)), Some(record), r.trades + fed.trades, r.review)
  }

  function FullAll(cfg: Config, records: seq<BarRecord>, nextClose: int -> int, tapes: Tapes): Replay
    requires cfg.Usable()
  {
    if records == [] then NOTHING_REPLAYED
    else FullRecord(cfg, FullAll(cfg, records[..|records| - 1], nextClose, tapes), records[|records| - 1], nextClose,
        tapes)
  }

  // ---- while flat ----

  lemma FlatClock(cfg: Config, s: State, previous: BarRecord, tick: int)
    requires cfg.Usable() && Whole(s) && s.side == Flat
    ensures Clock(cfg, s, previous, tick) == Fed(s, [])
  {
    ClockSpan(cfg, s, previous, tick);
    FlatDecides(cfg, s, ContextOf(cfg, s, Input(tick, None, ClockTick, true, false, false)));
    hide Decide, ContextOf, Sound;
  }

  lemma FlatTick(cfg: Config, s: State, previous: BarRecord, record: BarRecord, tape: Tape, c: Cursor, tick: int)
    requires cfg.Usable() && Whole(s) && s.side == Flat && OnTape(tape, c)
    ensures AtTick(cfg, s, previous, record, Some(tape), c, tick) == Exits(s, [], c)
  {
    FlatClock(cfg, s, previous, tick);
    hide Clock, Sound;
    assert ExitWatchPrices(cfg, s) == None;
  }

  lemma {:induction false} FlatDays(cfg: Config, s: State, previous: BarRecord, record: BarRecord, tape: Tape,
                                    c: Cursor, day: int)
    requires cfg.Usable() && Whole(s) && s.side == Flat && OnTape(tape, c)
    ensures Days(cfg, s, previous, record, Some(tape), c, day) == Exits(s, [], c)
    decreases DateOf(record.bar.end) - day
  {
    hide AtTick, Whole, TickOf;
    if day <= DateOf(record.bar.end) {
      FlatTick(cfg, s, previous, record, tape, c, TickOf(cfg, day));
      FlatDays(cfg, s, previous, record, tape, c, day + 1);
    }
  }

  lemma FlatFully(cfg: Config, s: State, record: BarRecord, tape: Tape, c: Cursor, before: int)
    requires cfg.Usable() && Whole(s) && s.side == Flat && OnTape(tape, c)
    ensures var fed := Fully(cfg, s, record, tape, c, before);
            fed.trades == [] && Whole(fed.state) && fed.state.side == Flat && SameButPrice(s, fed.state)
  {
    hide Feed, Mean, LowerBound;
    FeedQuiet(cfg, s, record, tape, Next(tape, c), Limit(tape, c, before));
  }

  lemma {:induction false} FlatFullDays(cfg: Config, s: State, previous: BarRecord, record: BarRecord, tape: Tape,
                                        from: int, day: int)
    requires cfg.Usable() && Whole(s) && s.side == Flat
    ensures var r := FullDays(cfg, s, previous, record, tape, from, day);
            r.trades == [] && Whole(r.state) && r.state.side == Flat && SameButPrice(s, r.state)
    decreases DateOf(record.bar.end) - day
  {
    hide Fully, Clock, Sound, TickOf;
    if day <= DateOf(record.bar.end) {
      var tick := TickOf(cfg, day);
      if previous.bar.end < tick <= record.bar.end {
        FlatFully(cfg, s, record, tape, From(from), tick);
        var a := Fully(cfg, s, record, tape, From(from), tick);
        FlatClock(cfg, a.state, previous, tick);
        FlatFullDays(cfg, a.state, previous, record, tape, tick, day + 1);
      } else {
        FlatFullDays(cfg, s, previous, record, tape, from, day + 1);
      }
    }
  }

  // ---- the first 04:55 instant ----

  lemma {:induction false} FeedLastPrice(cfg: Config, s: State, record: BarRecord, tape: Tape, i: nat, j: nat)
    requires cfg.Usable() && Held(s) && i <= j <= |tape|
    ensures var fed := Feed(cfg, s, record, tape, i, j);
            Held(fed.state) && fed.state.lastPrice == if i < j then Some(tape[j - 1].price) else s.lastPrice
    decreases j - i
  {
    hide FeedOne, Held, IsExit;
    if i < j {
      FeedOneShape(cfg, s, record, tape[i].price, tape[i].at);
      FeedLastPrice(cfg, FeedOne(cfg, s, record, tape[i].price, tape[i].at).state, record, tape, i + 1, j);
    }
  }

  /** A trade that left the position open changes nothing the second time. */
  lemma FeedTwice(cfg: Config, s: State, record: BarRecord, price: real, at: int)
    requires cfg.Usable() && Held(s) && s.side != Flat && !cfg.InBand(at)
        && FeedOne(cfg, s, record, price, at).trades == []
    ensures var t := FeedOne(cfg, s, record, price, at).state; FeedOne(cfg, t, record, price, at) == Fed(t, [])
  {
    hide FeedOne, Mean, AdverseEdge, Points, IsExit;
    var t := FeedOne(cfg, s, record, price, at).state;
    FeedOneShape(cfg, s, record, price, at);
    FeedOneFollows(cfg, s, record, price, at);
    FeedOneShape(cfg, t, record, price, at);
    FeedOneFollows(cfg, t, record, price, at);
    assert FollowedEdge(cfg, t, StoredPeak(t)) == FollowedEdge(cfg, s, StoredPeak(t));
    var u := FeedOne(cfg, t, record, price, at).state;
    assert u.profitActivated == t.profitActivated && u.maxFavorable == t.maxFavorable && u.lastPrice == t.lastPrice;
  }

  lemma RefeedLast(cfg: Config, s: State, record: BarRecord, tape: Tape, i: nat, j: nat)
    requires cfg.Usable() && Held(s) && s.side != Flat && i < j <= |tape| && !cfg.InBand(tape[j - 1].at)
    requires Feed(cfg, s, record, tape, i, j).trades == []
    ensures var full := Feed(cfg, s, record, tape, i, j);
            FeedOne(cfg, full.state, record, tape[j - 1].price, tape[j - 1].at) == Fed(full.state, [])
  {
    hide FeedOne, Held;
    FeedSplit(cfg, s, record, tape, i, j - 1, j);
    var x := Feed(cfg, s, record, tape, i, j - 1).state;
    FeedLastPrice(cfg, s, record, tape, i, j - 1);
    StaysOpen(cfg, s, record, tape, i, j - 1);
    var last := FeedOne(cfg, x, record, tape[j - 1].price, tape[j - 1].at);
    assert Feed(cfg, x, record, tape, j - 1, j) == Fed(last.state, last.trades + []);
    FeedTwice(cfg, x, record, tape[j - 1].price, tape[j - 1].at);
  }

  lemma {:induction false} StaysOpen(cfg: Config, s: State, record: BarRecord, tape: Tape, i: nat, j: nat)
    requires cfg.Usable() && Held(s) && i <= j <= |tape| && Feed(cfg, s, record, tape, i, j).trades == []
    ensures Feed(cfg, s, record, tape, i, j).state.side == s.side
    decreases j - i
  {
    hide FeedOne, Held, IsExit;
    if i < j {
      FeedOneShape(cfg, s, record, tape[i].price, tape[i].at);
      StaysOpen(cfg, FeedOne(cfg, s, record, tape[i].price, tape[i].at).state, record, tape, i + 1, j);
    }
  }

  /** The price documented for the 04:55 exit. */
  function Documented(s: State, tape: Tape, c: Cursor, tick: int): Option<real>
    requires OnTape(tape, c)
  {
    var last := LastAtOrBefore(tape, c, tick);
    if last.Some? then Some(tape[last.value].price) else s.lastPrice
  }

  /** What the records must show for the window that ends at a 04:55 instant or at the next close: trades inside
      the bar respect it, no stop was reached unrecorded, and the 04:55 exit does not miss a hole's last trade. */
  ghost predicate WindowTells(cfg: Config, s: State, previous: BarRecord, record: BarRecord, tape: Tape, before: int) {
    var c := From(previous.bar.end);
    && (forall k | Next(tape, c) <= k < Limit(tape, c, before) && tape[k].at >= record.bar.start ::
          record.bar.low <= tape[k].price <= record.bar.high)
    && !StopUnrecorded(cfg, s, record, tape, c, before)
    && (ExitWatchPrices(cfg, s).Some? && HoleUncovered(previous, record, tape, before) ==>
          Carried(cfg, s, tape, Next(tape, c), Limit(tape, c, record.bar.start)) == Documented(s, tape, c, before))
  }

  /** Both forms up to 04:55: the same exits, and the same flat engine but for the last price. */
  ghost predicate SameTick(cfg: Config, s: State, previous: BarRecord, record: BarRecord, tape: Tape, tick: int)
    requires cfg.Usable()
  {
    var fast := AtTick(cfg, s, previous, record, Some(tape), From(previous.bar.end), tick);
    var full := FullTick(cfg, s, previous, record, tape, previous.bar.end, tick);
    && fast.trades == full.trades && SameButPrice(fast.state, full.state)
    && Whole(fast.state) && Whole(full.state) && fast.state.side == Flat == full.state.side
  }

  lemma ClosedBeforeTick(cfg: Config, s: State, previous: BarRecord, record: BarRecord, tape: Tape, tick: int)
    requires cfg.Usable() && Whole(s) && s.side != Flat && previous.bar.end < tick && cfg.InBand(tick)
    requires Agree(cfg, s, record, tape, From(previous.bar.end), tick)
    requires Fully(cfg, s, record, tape, From(previous.bar.end), tick).trades != []
    ensures SameTick(cfg, s, previous, record, tape, tick)
  {
    var c := From(previous.bar.end);
    var fast, full := TradeExits(cfg, s, record, tape, c, tick), Fully(cfg, s, record, tape, c, tick);
    TradeExitsSpan(cfg, s, record, tape, c, tick, previous.bar.end);
    hide TradeExits, Fully, Clock, IsExit, Mean;
    assert Whole(full.state) && full.state.side == Flat;
    FlatClock(cfg, fast.state, previous, tick);
    FlatClock(cfg, full.state, previous, tick);
    assert fast.trades + [] + [] == fast.trades && full.trades + [] + [] == full.trades;
  }

  /** Where the search of the fast form may resume: never behind the instant. */
  lemma CursorBefore(cfg: Config, s: State, record: BarRecord, tape: Tape, c: Cursor, before: int)
    requires cfg.Usable() && Whole(s) && OnTape(tape, c) && CursorTime(tape, c) < before
    requires TradeExits(cfg, s, record, tape, c, before).trades == []
    ensures Next(tape, TradeExits(cfg, s, record, tape, c, before).cursor) <= LowerBound(tape, before)
  {
    hide TradeExits, Whole;
    SearchStops(cfg, s, record, tape, c, before);
    NextAdvances(tape, c, before);
    var e := TradeExits(cfg, s, record, tape, c, before).cursor;
    if e == From(record.bar.start) && record.bar.start < before {
      NextAdvances(tape, e, before);
    }
  }

  /** What follows the search at a 04:55 instant: the last trade the cursor admits, then the clock. */
  function TickEnd(cfg: Config, s: State, previous: BarRecord, record: BarRecord, tape: Tape, c: Cursor, tick: int): Fed
    requires cfg.Usable() && OnTape(tape, c)
  {
    var b := LastTrade(cfg, s, record, Some(tape), c, tick);
    var clock := Clock(cfg, b.state, previous, tick);
    Fed(clock.state, b.trades + clock.trades)
  }

  lemma TickEnds(cfg: Config, s: State, previous: BarRecord, record: BarRecord, tape: Tape, tick: int)
    requires cfg.Usable()
    ensures var c := From(previous.bar.end);
            var fast, full := TradeExits(cfg, s, record, tape, c, tick), Fully(cfg, s, record, tape, c, tick);
            && (fast.trades == [] ==>
                  var e, end := AtTick(cfg, s, previous, record, Some(tape), c, tick),
                                TickEnd(cfg, fast.state, previous, record, tape, fast.cursor, tick);
                  e.state == end.state && e.trades == end.trades)
            && (full.trades == [] ==>
                  FullTick(cfg, s, previous, record, tape, previous.bar.end, tick)
                    == TickEnd(cfg, full.state, previous, record, tape, From(tick), tick))
  {
    hide TradeExits, Fully, LastTrade, Clock;
    var c := From(previous.bar.end);
    var fast, full := TradeExits(cfg, s, record, tape, c, tick), Fully(cfg, s, record, tape, c, tick);
    var b := LastTrade(cfg, fast.state, record, Some(tape), fast.cursor, tick);
    assert [] + b.trades == b.trades;
    var d := LastTrade(cfg, full.state, record, Some(tape), From(tick), tick);
    assert [] + d.trades == d.trades;
  }

  lemma TickEndIsFlat(cfg: Config, s: State, previous: BarRecord, record: BarRecord, tape: Tape, c: Cursor, tick: int)
    requires cfg.Usable() && Whole(s) && OnTape(tape, c) && cfg.InBand(tick)
    ensures var end := TickEnd(cfg, s, previous, record, tape, c, tick); Whole(end.state) && end.state.side == Flat
  {
    hide LastTrade, Clock, IsExit, Sound;
    LastTradeSpan(cfg, s, record, Some(tape), c, tick, CursorTime(tape, c));
    ClockSpan(cfg, LastTrade(cfg, s, record, Some(tape), c, tick).state, previous, tick);
  }

  /** Both forms end the instant alike when they are open there and take the same last trade. */
  lemma SameEnd(cfg: Config, s: State, previous: BarRecord, record: BarRecord, tape: Tape, tick: int)
    requires cfg.Usable() && Whole(s) && previous.bar.end < tick && cfg.InBand(tick)
    requires TradeExits(cfg, s, record, tape, From(previous.bar.end), tick).trades == []
    requires Fully(cfg, s, record, tape, From(previous.bar.end), tick).trades == []
    requires var c := From(previous.bar.end);
             var fast, full := TradeExits(cfg, s, record, tape, c, tick), Fully(cfg, s, record, tape, c, tick);
             && TickEnd(cfg, fast.state, previous, record, tape, fast.cursor, tick)
                == TickEnd(cfg, full.state, previous, record, tape, From(tick), tick)
             && Whole(fast.state)
    ensures SameTick(cfg, s, previous, record, tape, tick)
  {
    hide TradeExits, Fully, TickEnd, AtTick, FullTick, Whole;
    TickEnds(cfg, s, previous, record, tape, tick);
    var fast := TradeExits(cfg, s, record, tape, From(previous.bar.end), tick);
    TickEndIsFlat(cfg, fast.state, previous, record, tape, fast.cursor, tick);
  }

  /** With a trade exactly at 04:55 both forms exit at the last such trade. */
  lemma TradeAtTick(cfg: Config, s: State, t: State, previous: BarRecord, record: BarRecord, tape: Tape, c: Cursor,
                    tick: int)
    requires cfg.Usable() && SameButPrice(s, t) && s.side != Flat && OnTape(tape, c)
        && Next(tape, c) <= LowerBound(tape, tick)
    requires LastAtOrBefore(tape, From(tick), tick).Some?
    ensures TickEnd(cfg, s, previous, record, tape, c, tick)
        == TickEnd(cfg, t, previous, record, tape, From(tick), tick)
  {
    var r := LastAtOrBefore(tape, From(tick), tick).value;
    assert LastAtOrBefore(tape, c, tick) == Some(r);
    hide FeedOne, Clock, LastAtOrBefore;
    PriceIsForgotten(cfg, s, t, record, tape[r].price, tape[r].at);
  }

  /** Without one, the fast form has or takes the last trade before it. */
  lemma NoTradeAtTick(cfg: Config, s: State, t: State, previous: BarRecord, record: BarRecord, tape: Tape, c: Cursor,
                      tick: int)
    requires cfg.Usable() && SameButPrice(s, t) && s.side != Flat && OnTape(tape, c)
        && Next(tape, c) <= LowerBound(tape, tick)
    requires LastAtOrBefore(tape, From(tick), tick).None?
    requires var last := LastAtOrBefore(tape, c, tick);
             if last.Some? then FeedOne(cfg, t, record, tape[last.value].price, tape[last.value].at) == Fed(t, [])
                 else s == t
    ensures TickEnd(cfg, s, previous, record, tape, c, tick)
        == TickEnd(cfg, t, previous, record, tape, From(tick), tick)
  {
    var last := LastAtOrBefore(tape, c, tick);
    hide FeedOne, Clock, LastAtOrBefore;
    if last.Some? {
      PriceIsForgotten(cfg, s, t, record, tape[last.value].price, tape[last.value].at);
    }
  }

  /** A position open up to 04:55 is flattened alike. */
  lemma OpenAtTick(cfg: Config, s: State, previous: BarRecord, record: BarRecord, tape: Tape, tick: int)
    requires cfg.Usable() && Whole(s) && s.side != Flat && previous.bar.end < tick && cfg.InBand(tick)
    requires WindowTells(cfg, s, previous, record, tape, tick)
        && Consistent(cfg, record, tape, From(previous.bar.end), tick)
    requires Agree(cfg, s, record, tape, From(previous.bar.end), tick)
    requires Fully(cfg, s, record, tape, From(previous.bar.end), tick).trades == []
    ensures SameTick(cfg, s, previous, record, tape, tick)
  {
    var c := From(previous.bar.end);
    var fast, full := TradeExits(cfg, s, record, tape, c, tick), Fully(cfg, s, record, tape, c, tick);
    assert fast.trades == [] && SameButPrice(fast.state, full.state);
    TradeExitsSpan(cfg, s, record, tape, c, tick, previous.bar.end);
    CursorBefore(cfg, s, record, tape, c, tick);
    assert fast.state.side != Flat by {
      hide TradeExits, Fully, Mean;
    }
    if LastAtOrBefore(tape, From(tick), tick).Some? {
      hide TradeExits, Fully, TickEnd, WindowTells;
      TradeAtTick(cfg, fast.state, full.state, previous, record, tape, fast.cursor, tick);
    } else {
      OpenWithoutTrade(cfg, s, previous, record, tape, tick);
    }
    hide TradeExits, Fully, TickEnd, WindowTells;
    SameEnd(cfg, s, previous, record, tape, tick);
  }

  lemma OpenWithoutTrade(cfg: Config, s: State, previous: BarRecord, record: BarRecord, tape: Tape, tick: int)
    requires cfg.Usable() && Whole(s) && s.side != Flat && previous.bar.end < tick && cfg.InBand(tick)
    requires WindowTells(cfg, s, previous, record, tape, tick)
        && Consistent(cfg, record, tape, From(previous.bar.end), tick)
    requires Agree(cfg, s, record, tape, From(previous.bar.end), tick)
    requires Fully(cfg, s, record, tape, From(previous.bar.end), tick).trades == []
    requires LastAtOrBefore(tape, From(tick), tick).None?
    ensures var c := From(previous.bar.end);
            var fast, full := TradeExits(cfg, s, record, tape, c, tick), Fully(cfg, s, record, tape, c, tick);
            TickEnd(cfg, fast.state, previous, record, tape, fast.cursor, tick)
              == TickEnd(cfg, full.state, previous, record, tape, From(tick), tick)
  {
    hide TradeExits, TickEnd, AtTick, Carried, ExitWatchPrices, Mean, StopUnrecorded, FeedOne, Feed;
    var c := From(previous.bar.end);
    var fast, full := TradeExits(cfg, s, record, tape, c, tick), Fully(cfg, s, record, tape, c, tick);
    TradeExitsSpan(cfg, s, record, tape, c, tick, previous.bar.end);
    CursorBefore(cfg, s, record, tape, c, tick);
    FlattensAtLastTradeExactly(cfg, s, previous, record, tape, tick);
    FlattenPrice(cfg, s, previous, record, tape, tick);
    var i, j := Next(tape, c), Limit(tape, c, tick);
    FeedLastPrice(cfg, s, record, tape, i, j);
    NextAdvances(tape, c, tick);
    LastBefore(tape, c, tick);
    LastBefore(tape, fast.cursor, tick);
    var last := LastAtOrBefore(tape, fast.cursor, tick);
    if last.Some? {
      RefeedLast(cfg, s, record, tape, i, j);
    }
    hide LastAtOrBefore;
    NoTradeAtTick(cfg, fast.state, full.state, previous, record, tape, fast.cursor, tick);
  }

  /** With no trade at the instant, the last trade up to it is the last one before it. */
  lemma LastBefore(tape: Tape, c: Cursor, tick: int)
    requires OnTape(tape, c) && LastAtOrBefore(tape, From(tick), tick).None? && Next(tape, c) <= LowerBound(tape, tick)
    ensures LastAtOrBefore(tape, c, tick)
         == if Next(tape, c) < LowerBound(tape, tick) then Some(LowerBound(tape, tick) - 1) else None
  {
    hide LowerBound, LastAtOrBefore;
    LastIs(tape, c, tick);
    LastIs(tape, From(tick), tick);
    NextAdvances(tape, From(tick), tick + 1);
  }

  lemma LastIs(tape: Tape, c: Cursor, at: int)
    requires OnTape(tape, c)
    ensures var end := LowerBound(tape, at + 1);
        LastAtOrBefore(tape, c, at) == if end > Next(tape, c) then Some(end - 1) else None
  {
    hide LowerBound, Next;
  }

  // ---- the whole replay ----

  /** Between two closes: the same exits, and the same engine but for the last price. */
  ghost predicate SameBetween(cfg: Config, s: State, previous: BarRecord, record: BarRecord, tape: Tape)
    requires cfg.Usable()
  {
    var fast, full := BetweenCloses(cfg, s, previous, record, Some(tape)), FullBetween(cfg, s, previous, record, tape);
    fast.trades == full.trades && SameButPrice(fast.state, full.state)
  }

  /** The end of the window in which a held position is searched: the first 04:55 instant, or the close. */
  function SearchEnd(cfg: Config, previous: BarRecord, record: BarRecord): int {
    var today := TickOf(cfg, DateOf(previous.bar.end));
    var tick := if today > previous.bar.end then today else TickOf(cfg, DateOf(previous.bar.end) + 1);
    if tick <= record.bar.end then tick else record.bar.end
  }

  lemma NoTickBefore(cfg: Config, previous: BarRecord, record: BarRecord, d: int)
    requires cfg.Usable() && previous.bar.end <= record.bar.end
    ensures !(previous.bar.end < TickOf(cfg, d) < SearchEnd(cfg, previous, record))
  {
    LaterTick(cfg, previous.bar.end, d);
    TicksIncrease(cfg, DateOf(previous.bar.end) + 1, d);
  }

  lemma WindowAgrees(cfg: Config, s: State, previous: BarRecord, record: BarRecord, tape: Tape)
    requires cfg.Usable() && Whole(s) && s.side != Flat && !cfg.InBand(previous.bar.end)
        && previous.bar.end <= record.bar.end
    requires WindowTells(cfg, s, previous, record, tape, SearchEnd(cfg, previous, record))
    ensures var c, before := From(previous.bar.end), SearchEnd(cfg, previous, record);
            Consistent(cfg, record, tape, c, before) && Agree(cfg, s, record, tape, c, before)
  {
    hide Agree, StopUnrecorded, Carried, TickOf, Mean, SearchEnd;
    var c, before := From(previous.bar.end), SearchEnd(cfg, previous, record);
    forall k | Next(tape, c) <= k < Limit(tape, c, before) ensures !cfg.InBand(tape[k].at) {
      forall d ensures !(previous.bar.end < TickOf(cfg, d) <= tape[k].at) {
        NoTickBefore(cfg, previous, record, d);
      }
      OutsideBandUntilTick(cfg, previous.bar.end, tape[k].at);
    }
    SkipAgreesExactly(cfg, s, record, tape, c, before);
  }

  /** The 04:55 instant of the window, if it ends with one. */
  lemma FirstTickAgrees(cfg: Config, s: State, previous: BarRecord, record: BarRecord, tape: Tape, tick: int)
    requires cfg.Usable() && Whole(s) && s.side != Flat && !cfg.InBand(previous.bar.end)
        && previous.bar.end < tick <= record.bar.end
    requires tick == SearchEnd(cfg, previous, record) && cfg.InBand(tick)
        && WindowTells(cfg, s, previous, record, tape, tick)
    ensures SameTick(cfg, s, previous, record, tape, tick)
  {
    hide Agree, WindowTells, Whole, SameTick, Fully, SearchEnd;
    WindowAgrees(cfg, s, previous, record, tape);
    if Fully(cfg, s, record, tape, From(previous.bar.end), tick).trades == [] {
      OpenAtTick(cfg, s, previous, record, tape, tick);
    } else {
      ClosedBeforeTick(cfg, s, previous, record, tape, tick);
    }
  }

  /** Nothing happens on days whose 04:55 is outside the interval. */
  lemma {:induction false} QuietDays(cfg: Config, s: State, previous: BarRecord, record: BarRecord, tape: Tape,
                                     day: int)
    requires cfg.Usable() && forall d | d >= day :: !(previous.bar.end < TickOf(cfg, d) <= record.bar.end)
    ensures Days(cfg, s, previous, record, Some(tape), From(previous.bar.end), day)
        == Exits(s, [], From(previous.bar.end))
    ensures FullDays(cfg, s, previous, record, tape, previous.bar.end, day) == FedUpTo(s, [], previous.bar.end)
    decreases DateOf(record.bar.end) - day
  {
    hide TickOf, AtTick, FullTick;
    if day <= DateOf(record.bar.end) {
      assert !(previous.bar.end < TickOf(cfg, day) <= record.bar.end);
      QuietDays(cfg, s, previous, record, tape, day + 1);
    }
  }

  /** The day of the first 04:55 instant flattens both forms, and later days change nothing. */
  lemma FlattenDayAgrees(cfg: Config, s: State, previous: BarRecord, record: BarRecord, tape: Tape, day: int)
    requires cfg.Usable() && previous.bar.end < TickOf(cfg, day) <= record.bar.end
    requires SameTick(cfg, s, previous, record, tape, TickOf(cfg, day))
    ensures var c := From(previous.bar.end);
            var fast, full := Days(cfg, s, previous, record, Some(tape), c, day),
                FullDays(cfg, s, previous, record, tape, previous.bar.end, day);
            && fast.trades == full.trades && SameButPrice(fast.state, full.state)
            && Whole(fast.state) && Whole(full.state) && fast.state.side == Flat == full.state.side
                && OnTape(tape, fast.cursor)
  {
    hide TickOf, AtTick, FullTick, Whole, Days, FullDays;
    var tick := TickOf(cfg, day);
    var now := AtTick(cfg, s, previous, record, Some(tape), From(previous.bar.end), tick);
    var full := FullTick(cfg, s, previous, record, tape, previous.bar.end, tick);
    DaysFrom(cfg, s, previous, record, tape, day);
    FlatDays(cfg, now.state, previous, record, tape, now.cursor, day + 1);
    FlatFullDays(cfg, full.state, previous, record, tape, tick, day + 1);
    assert now.trades + [] == now.trades && full.trades + [] == full.trades;
    var rest := FullDays(cfg, full.state, previous, record, tape, tick, day + 1);
    SamePriceJoins(now.state, full.state, rest.state);
  }

  lemma SamePriceJoins(s: State, t: State, u: State)
    requires SameButPrice(s, t) && SameButPrice(t, u)
    ensures SameButPrice(s, u) && SameButPrice(t, s)
  {
  }

  lemma DaysFrom(cfg: Config, s: State, previous: BarRecord, record: BarRecord, tape: Tape, day: int)
    requires cfg.Usable() && previous.bar.end < TickOf(cfg, day) <= record.bar.end
    ensures var c, tick := From(previous.bar.end), TickOf(cfg, day);
            var now, full := AtTick(cfg, s, previous, record, Some(tape), c, tick),
                FullTick(cfg, s, previous, record, tape, previous.bar.end, tick);
            var rest, others := Days(cfg, now.state, previous, record, Some(tape), now.cursor, day + 1),
                                FullDays(cfg, full.state, previous, record, tape, tick, day + 1);
            && Days(cfg, s, previous, record, Some(tape), c, day)
                == Exits(rest.state, now.trades + rest.trades, rest.cursor)
            && FullDays(cfg, s, previous, record, tape, previous.bar.end, day)
               == FedUpTo(others.state, full.trades + others.trades, others.upTo)
  {
    LaterTick(cfg, record.bar.end, day);
    hide TickOf, AtTick, FullTick;
  }

  /** Both forms between two closes, for an open position: up to the first 04:55 instant, or to the close. */
  lemma OpenBetweenAgrees(cfg: Config, s: State, previous: BarRecord, record: BarRecord, tape: Tape)
    requires cfg.Usable() && Whole(s) && s.side != Flat && !cfg.InBand(previous.bar.end)
        && previous.bar.end <= record.bar.end
    requires WindowTells(cfg, s, previous, record, tape, SearchEnd(cfg, previous, record))
    ensures SameBetween(cfg, s, previous, record, tape)
  {
    var lo, today := previous.bar.end, DateOf(previous.bar.end);
    var day := if TickOf(cfg, today) > lo then today else today + 1;
    var tick := TickOf(cfg, day);
    FirstDay(cfg, s, previous, record, tape, day);
    if lo < tick <= record.bar.end {
      TicksAreInBand(cfg, day);
      assert SearchEnd(cfg, previous, record) == tick;
      hide Days, FullDays, TickOf, WindowTells, SearchEnd;
      FirstTickAgrees(cfg, s, previous, record, tape, tick);
      FlattenDayAgrees(cfg, s, previous, record, tape, day);
      hide SameTick;
      FlatEndAgrees(cfg, s, previous, record, tape);
    } else {
      assert SearchEnd(cfg, previous, record) == record.bar.end;
      forall d | d >= day ensures !(lo < TickOf(cfg, d) <= record.bar.end) {
        TicksIncrease(cfg, day, d);
      }
      QuietDays(cfg, s, previous, record, tape, day);
      hide Days, FullDays, TickOf, WindowTells, SearchEnd, TradeExits, Fully;
      WindowAgrees(cfg, s, previous, record, tape);
      var fast, full := TradeExits(cfg, s, record, tape, From(lo), record.bar.end),
          Fully(cfg, s, record, tape, From(lo), record.bar.end);
      assert [] + fast.trades == fast.trades && [] + full.trades == full.trades;
    }
  }

  /** The loop over the days starts with the first one whose 04:55 is still ahead. */
  lemma FirstDay(cfg: Config, s: State, previous: BarRecord, record: BarRecord, tape: Tape, day: int)
    requires cfg.Usable() && previous.bar.end <= record.bar.end
    requires day == if TickOf(cfg, DateOf(previous.bar.end)) > previous.bar.end then DateOf(previous.bar.end)
        else DateOf(previous.bar.end) + 1
    ensures var c, today := From(previous.bar.end), DateOf(previous.bar.end);
            && Days(cfg, s, previous, record, Some(tape), c, today)
                == Days(cfg, s, previous, record, Some(tape), c, day)
            && FullDays(cfg, s, previous, record, tape, previous.bar.end, today)
                == FullDays(cfg, s, previous, record, tape, previous.bar.end, day)
  {
    hide AtTick, FullTick;
    var rest := Days(cfg, s, previous, record, Some(tape), From(previous.bar.end), day);
    assert [] + rest.trades == rest.trades;
  }

  /** Once both are flat, the trades left before the close change nothing but the last price. */
  lemma FlatEndAgrees(cfg: Config, s: State, previous: BarRecord, record: BarRecord, tape: Tape)
    requires cfg.Usable()
    requires var c, today := From(previous.bar.end), DateOf(previous.bar.end);
             var fast, full := Days(cfg, s, previous, record, Some(tape), c, today),
                               FullDays(cfg, s, previous, record, tape, previous.bar.end, today);
             && fast.trades == full.trades && SameButPrice(fast.state, full.state)
             && Whole(fast.state) && Whole(full.state) && fast.state.side == Flat == full.state.side
                 && OnTape(tape, fast.cursor)
    ensures SameBetween(cfg, s, previous, record, tape)
  {
    hide Days, FullDays, Fully, Sound;
    var c, today := From(previous.bar.end), DateOf(previous.bar.end);
    var fast := Days(cfg, s, previous, record, Some(tape), c, today);
    var full := FullDays(cfg, s, previous, record, tape, previous.bar.end, today);
    assert ExitWatchPrices(cfg, fast.state) == None;
    FlatFully(cfg, full.state, record, tape, From(full.upTo), record.bar.end);
    var rest := Fully(cfg, full.state, record, tape, From(full.upTo), record.bar.end);
    SamePriceJoins(fast.state, full.state, rest.state);
    assert fast.trades + [] == fast.trades && full.trades + [] == full.trades;
  }

  lemma FlatBetweenAgrees(cfg: Config, s: State, previous: BarRecord, record: BarRecord, tape: Tape)
    requires cfg.Usable() && Whole(s) && s.side == Flat
    ensures SameBetween(cfg, s, previous, record, tape)
  {
    hide Days, FullDays, Whole;
    FlatDays(cfg, s, previous, record, tape, From(previous.bar.end), DateOf(previous.bar.end));
    FlatFullDays(cfg, s, previous, record, tape, previous.bar.end, DateOf(previous.bar.end));
    FlatEndAgrees(cfg, s, previous, record, tape);
  }

  /** A close forgets the price before it. */
  lemma CloseForgetsPrice(cfg: Config, s: State, t: State, record: BarRecord)
    requires cfg.Usable() && SameButPrice(s, t)
    ensures Close(cfg, s, record) == Close(cfg, t, record)
  {
    assert Absorb(cfg, s, record.bar) == Absorb(cfg, t, record.bar);
    hide Absorb, Evaluate;
  }

  /** What a record must tell about the trades of a position that is open when it comes up. */
  ghost predicate Tells(cfg: Config, r0: Replay, record: BarRecord, nextClose: int -> int, tapes: Tapes) {
    var r := AfterHole(SwitchContract(r0, record), record, nextClose);
    tapes.Some? && r.previous.Some? && IsOpen(r.engine) ==>
      WindowTells(cfg, r.engine.value, r.previous.value, record, tapes.value(record.bar.contract),
                  SearchEnd(cfg, r.previous.value, record))
  }

  lemma PreviousOutsideBand(cfg: Config, r: Replay, start: int, end: int)
    requires ReplayOk(cfg, r, start, end) && IsOpen(r.engine)
    ensures r.previous.Some? && Whole(r.engine.value) && !cfg.InBand(r.previous.value.bar.end)
        && r.previous.value.bar.end <= end
  {
    hide LogOk, TickOf, KeyBelow, Sound;
  }

  lemma RecordAgrees(cfg: Config, r0: Replay, record: BarRecord, nextClose: int -> int, tapes: Tapes, start: int,
                     end: int)
    requires cfg.Usable() && ReplayOk(cfg, r0, start, end) && record.bar.end >= end
        && Tells(cfg, r0, record, nextClose, tapes)
    ensures ReplayRecord(cfg, r0, record, nextClose, tapes) == FullRecord(cfg, r0, record, nextClose, tapes)
  {
    PreparedOk(cfg, r0, record, nextClose, start, end);
    var r := AfterHole(SwitchContract(r0, record), record, nextClose);
    if tapes.Some? && r.previous.Some? {
      var s, tape := r.engine.value, tapes.value(record.bar.contract);
      if IsOpen(r.engine) {
        PreviousOutsideBand(cfg, r, start, end);
        hide ReplayOk, AfterHole, SwitchContract, WindowTells, SearchEnd, SameBetween, Whole;
        OpenBetweenAgrees(cfg, s, r.previous.value, record, tape);
      } else {
        WholeEngine(cfg, r, start, end);
        hide ReplayOk, AfterHole, SwitchContract, WindowTells, SearchEnd, SameBetween, Whole;
        FlatBetweenAgrees(cfg, s, r.previous.value, record, tape);
      }
      hide ReplayOk, AfterHole, SwitchContract, BetweenCloses, FullBetween;
      CloseForgetsPrice(cfg, BetweenCloses(cfg, s, r.previous.value, record, Some(tape)).state,
                        FullBetween(cfg, s, r.previous.value, record, tape).state, record);
    }
    hide ReplayOk, AfterHole, SwitchContract, BetweenCloses, FullBetween, Close, Tells;
    assert Through(cfg, r, record, tapes) == FullThrough(cfg, r, record, tapes);
  }

  lemma WholeEngine(cfg: Config, r: Replay, start: int, end: int)
    requires ReplayOk(cfg, r, start, end) && r.previous.Some?
    ensures r.engine.Some? && Whole(r.engine.value)
  {
    hide LogOk, OpenedBy, Whole;
  }

  /** Every record tells enough, given what the replay holds when it comes up. */
  ghost predicate AllTell(cfg: Config, records: seq<BarRecord>, nextClose: int -> int, tapes: Tapes)
    requires cfg.Usable()
  {
    forall n | 0 <= n < |records| ::
        Tells(cfg, ReplayAll(cfg, records[..n], nextClose, tapes), records[n], nextClose, tapes)
  }

  /** The replay that skips is the replay that feeds every recorded trade: the same trades with the same
      decisions, the same final engine and the same review records. */
  lemma {:induction false} ReplayFeedsEverything(cfg: Config, records: seq<BarRecord>, nextClose: int -> int,
                                                 tapes: Tapes)
    requires cfg.Usable() && TimeOrdered(records) && AllTell(cfg, records, nextClose, tapes)
    ensures ReplayAll(cfg, records, nextClose, tapes) == FullAll(cfg, records, nextClose, tapes)
  {
    hide ReplayRecord, FullRecord, Tells, ReplayOk, AllTell, TimeOrdered;
    if records != [] {
      var n := |records| - 1;
      var earlier, record := records[..n], records[n];
      EarlierTell(cfg, records, nextClose, tapes);
      EarlierOrdered(records);
      ReplayFeedsEverything(cfg, earlier, nextClose, tapes);
      EveryReplayIsOk(cfg, earlier, nextClose, tapes);
      if n == 0 {
        EmptyReplayOk(cfg, record.bar.start, record.bar.end, record.bar.contract);
        RecordAgrees(cfg, NOTHING_REPLAYED, record, nextClose, tapes, record.bar.start, record.bar.end);
      } else {
        var last := records[n - 1].bar;
        RecordAgrees(cfg, ReplayAll(cfg, earlier, nextClose, tapes), record, nextClose, tapes, last.start, last.end);
      }
    }
  }

  lemma EarlierTell(cfg: Config, records: seq<BarRecord>, nextClose: int -> int, tapes: Tapes)
    requires cfg.Usable() && records != [] && AllTell(cfg, records, nextClose, tapes)
    ensures var n := |records| - 1;
            && AllTell(cfg, records[..n], nextClose, tapes)
            && Tells(cfg, ReplayAll(cfg, records[..n], nextClose, tapes), records[n], nextClose, tapes)
  {
    hide ReplayAll, Tells;
    var earlier := records[..|records| - 1];
    forall m | 0 <= m < |earlier|
      ensures Tells(cfg, ReplayAll(cfg, earlier[..m], nextClose, tapes), earlier[m], nextClose, tapes)
    {
      assert earlier[..m] == records[..m];
      assert Tells(cfg, ReplayAll(cfg, records[..m], nextClose, tapes), records[m], nextClose, tapes);
    }
  }

  lemma EarlierOrdered(records: seq<BarRecord>)
    requires records != [] && TimeOrdered(records)
    ensures TimeOrdered(records[..|records| - 1])
    ensures |records| > 1 ==> records[|records| - 2].bar.end <= records[|records| - 1].bar.end
  {
  }
}
