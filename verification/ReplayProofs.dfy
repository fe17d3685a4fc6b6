/** What every replay of recorded history emits: trades in time order, with distinct intent keys,
    alternating whole entries and whole exits, none held across a 04:55 instant. */
module ReplayProofs {
  import opened Domain
  import opened EngineModel
  import opened EngineProofs
  import opened ReplayModel
  import opened SkipProofs

  /** How a replay keeps its engine: nothing or exactly two lots, priced, anchored to a bar. */
  ghost predicate Whole(s: State) {
    && Held(s)
    && (s.side != Flat ==> |s.lots| == MAX_LOTS && s.lastPrice.Some? && s.lastBarStart.Some?)
  }

  /** Over a span of time the position is left alone, or closed once within the span. */
  ghost predicate Span(cfg: Config, s: State, t: State, trades: seq<HistoricalTrade>, lo: int, hi: int) {
    && Whole(t)
    && (trades == [] ==> SamePosition(s, t))
    && (trades != [] ==>
          && |trades| == 1 && lo <= trades[0].decision.at <= hi && IsExit(cfg, s, trades[0], trades[0].decision.at)
          && t == Reset(s).(lastPrice := t.lastPrice))
  }

  lemma SpanCompose(cfg: Config, s: State, t: State, u: State, first: seq<HistoricalTrade>,
                    second: seq<HistoricalTrade>,
                    lo: int, hi: int)
    requires Whole(s) && Span(cfg, s, t, first, lo, hi) && Span(cfg, t, u, second, lo, hi)
    ensures Span(cfg, s, u, first + second, lo, hi)
    ensures t.side == Flat ==> u.side == Flat && second == []
  {
    hide Mean;
    if t.side == Flat {
      assert second == [];
      assert first + second == first;
    } else {
      assert first == [];
      assert first + second == second;
    }
  }

  lemma FeedOneSpan(cfg: Config, s: State, record: BarRecord, price: real, at: int)
    requires cfg.Usable() && Whole(s)
    ensures var fed := FeedOne(cfg, s, record, price, at); Span(cfg, s, fed.state, fed.trades, at, at)
  {
    FeedOneShape(cfg, s, record, price, at);
    hide FeedOne;
  }

  lemma {:induction false} TradeExitsSpan(cfg: Config, s: State, record: BarRecord, tape: Tape, c: Cursor, before: int,
                                          lo: int)
    requires cfg.Usable() && Whole(s) && OnTape(tape, c) && lo <= CursorTime(tape, c) && lo <= before
    ensures var e := TradeExits(cfg, s, record, tape, c, before);
            Span(cfg, s, e.state, e.trades, lo, before) && lo <= CursorTime(tape, e.cursor)
    decreases |tape| - Next(tape, c), if CursorTime(tape, c) < record.bar.start then 1 else 0
  {
    hide FeedOne, Sound, ExitWatchPrices, FirstBeyond, IsExit;
    var band, start, bar := ExitWatchPrices(cfg, s), CursorTime(tape, c), record.bar;
    if band.Some? && !(start >= bar.start && BarInside(bar, band.value)) {
      var windowEnd := WindowEnd(bar, start, before);
      var hit := FirstBeyond(tape, Next(tape, c), windowEnd, band.value);
      if hit.Some? {
        HitInWindow(tape, c, before, hit.value, windowEnd);
        var fed := FeedOne(cfg, s, record, tape[hit.value].price, tape[hit.value].at);
        FeedOneSpan(cfg, s, record, tape[hit.value].price, tape[hit.value].at);
        TradeExitsSpan(cfg, fed.state, record, tape, After(hit.value), before, lo);
        var rest := TradeExits(cfg, fed.state, record, tape, After(hit.value), before);
        SpanCompose(cfg, s, fed.state, rest.state, fed.trades, rest.trades, lo, before);
      } else if windowEnd < before {
        NextAdvances(tape, c, windowEnd);
        TradeExitsSpan(cfg, s, record, tape, From(windowEnd), before, lo);
      } else {
        var stop := StopLossPrice(cfg, s);
        if stop.Some? {
          FeedOneSpan(cfg, s, record, StopFillPrice(s.side, bar, stop.value), before);
        }
      }
    }
  }

  lemma ClockSpan(cfg: Config, s: State, previous: BarRecord, tick: int)
    requires cfg.Usable() && Whole(s)
    ensures var fed := Clock(cfg, s, previous, tick); Span(cfg, s, fed.state, fed.trades, tick, tick)
    ensures cfg.InBand(tick) ==> Clock(cfg, s, previous, tick).state.side == Flat
  {
    var input := Input(tick, None, ClockTick, true, false, false);
    hide Decide, Accept;
    AcceptExit(cfg, s, previous, ContextOf(cfg, s, input));
  }

  ghost predicate CursorFrom(tape: Option<Tape>, c: Cursor, lo: int) {
    OnMaybeTape(tape, c) && (tape.Some? ==> lo <= CursorTime(tape.value, c))
  }

  lemma MaybeExitsSpan(cfg: Config, s: State, record: BarRecord, tape: Option<Tape>, c: Cursor, before: int, lo: int)
    requires cfg.Usable() && Whole(s) && CursorFrom(tape, c, lo) && lo <= before
    ensures var e := MaybeExits(cfg, s, record, tape, c, before);
            Span(cfg, s, e.state, e.trades, lo, before) && CursorFrom(tape, e.cursor, lo)
  {
    hide TradeExits, IsExit, Sound;
    if tape.Some? {
      TradeExitsSpan(cfg, s, record, tape.value, c, before, lo);
    }
  }

  lemma LastTradeSpan(cfg: Config, s: State, record: BarRecord, tape: Option<Tape>, c: Cursor, tick: int, lo: int)
    requires cfg.Usable() && Whole(s) && CursorFrom(tape, c, lo)
    ensures var e := LastTrade(cfg, s, record, tape, c, tick);
            Span(cfg, s, e.state, e.trades, lo, tick) && CursorFrom(tape, e.cursor, lo)
  {
    hide FeedOne, IsExit, Sound;
    if tape.Some? && s.side != Flat {
      WindowAtOrAfter(tape.value, c);
      var last := LastAtOrBefore(tape.value, c, tick);
      if last.Some? {
        FeedOneSpan(cfg, s, record, tape.value[last.value].price, tape.value[last.value].at);
      }
    }
  }

  /** At a 04:55 instant the position is closed, whatever happened before it. */
  lemma AtTickFlattens(cfg: Config, s: State, previous: BarRecord, record: BarRecord, tape: Option<Tape>, c: Cursor,
                       tick: int, lo: int)
    requires cfg.Usable() && Whole(s) && CursorFrom(tape, c, lo) && lo <= tick && cfg.InBand(tick)
    ensures var e := AtTick(cfg, s, previous, record, tape, c, tick);
            Span(cfg, s, e.state, e.trades, lo, tick) && e.state.side == Flat && CursorFrom(tape, e.cursor, lo)
  {
    hide MaybeExits, LastTrade, Clock, IsExit, Sound;
    var a := MaybeExits(cfg, s, record, tape, c, tick);
    MaybeExitsSpan(cfg, s, record, tape, c, tick, lo);
    var b := LastTrade(cfg, a.state, record, tape, a.cursor, tick);
    LastTradeSpan(cfg, a.state, record, tape, a.cursor, tick, lo);
    var clock := Clock(cfg, b.state, previous, tick);
    ClockSpan(cfg, b.state, previous, tick);
    SpanCompose(cfg, s, a.state, b.state, a.trades, b.trades, lo, tick);
    SpanCompose(cfg, s, b.state, clock.state, a.trades + b.trades, clock.trades, lo, tick);
  }

  lemma TicksAreInBand(cfg: Config, day: int)
    requires cfg.Usable()
    ensures cfg.InBand(TickOf(cfg, day)) && DateOf(TickOf(cfg, day)) == day
  {
  }

  /** The position is flat after every 04:55 instant of the span, and closed no later than it. */
  ghost predicate Flattened(cfg: Config, t: State, trades: seq<HistoricalTrade>, from: int, after: int, upTo: int) {
    forall d :: from <= d && after < TickOf(cfg, d) <= upTo ==>
      t.side == Flat && (trades != [] ==> trades[0].decision.at <= TickOf(cfg, d))
  }

  lemma {:induction false} DaysSpan(cfg: Config, s: State, previous: BarRecord, record: BarRecord, tape: Option<Tape>,
                                    c: Cursor, day: int)
    requires cfg.Usable() && Whole(s) && CursorFrom(tape, c, previous.bar.end) && previous.bar.end <= record.bar.end
    ensures var e := Days(cfg, s, previous, record, tape, c, day);
            && Span(cfg, s, e.state, e.trades, previous.bar.end, record.bar.end)
            && CursorFrom(tape, e.cursor, previous.bar.end)
            && Flattened(cfg, e.state, e.trades, day, previous.bar.end, record.bar.end)
    decreases DateOf(record.bar.end) - day
  {
    hide AtTick, IsExit, Sound, TickOf;
    if day > DateOf(record.bar.end) {
      forall d | d >= day ensures TickOf(cfg, d) > record.bar.end {
        LaterTick(cfg, record.bar.end, d);
      }
    } else {
      var lo, hi := previous.bar.end, record.bar.end;
      var tick := TickOf(cfg, day);
      var inside := lo < tick <= hi;
      var now := if inside then AtTick(cfg, s, previous, record, tape, c, tick) else Exits(s, [], c);
      if inside {
        TicksAreInBand(cfg, day);
        AtTickFlattens(cfg, s, previous, record, tape, c, tick, lo);
      }
      DaysSpan(cfg, now.state, previous, record, tape, now.cursor, day + 1);
      DaysCombine(cfg, s, previous, record, tape, c, day);
    }
  }

  lemma LaterTick(cfg: Config, t: int, d: int)
    requires cfg.Usable()
    ensures d > DateOf(t) ==> TickOf(cfg, d) > t
    ensures d < DateOf(t) ==> TickOf(cfg, d) < t
  {
  }

  lemma TicksIncrease(cfg: Config, d: int, e: int)
    ensures d <= e ==> TickOf(cfg, d) <= TickOf(cfg, e)
  {
  }

  lemma DaysCombine(cfg: Config, s: State, previous: BarRecord, record: BarRecord, tape: Option<Tape>, c: Cursor,
                    day: int)
    requires cfg.Usable() && Whole(s) && OnMaybeTape(tape, c) && day <= DateOf(record.bar.end)
    requires previous.bar.end <= record.bar.end && CursorFrom(tape, c, previous.bar.end)
    requires var lo, hi, tick := previous.bar.end, record.bar.end, TickOf(cfg, day);
             var now := if lo < tick <= hi then AtTick(cfg, s, previous, record, tape, c, tick) else Exits(s, [], c);
             var rest := Days(cfg, now.state, previous, record, tape, now.cursor, day + 1);
             && (lo < tick <= hi ==> Span(cfg, s, now.state, now.trades, lo, tick) && now.state.side == Flat)
             && Span(cfg, now.state, rest.state, rest.trades, lo, hi) && CursorFrom(tape, rest.cursor, lo)
             && Flattened(cfg, rest.state, rest.trades, day + 1, lo, hi)
    ensures var e := Days(cfg, s, previous, record, tape, c, day);
            && Span(cfg, s, e.state, e.trades, previous.bar.end, record.bar.end)
            && CursorFrom(tape, e.cursor, previous.bar.end)
            && Flattened(cfg, e.state, e.trades, day, previous.bar.end, record.bar.end)
  {
    hide AtTick, IsExit, Sound, TickOf;
    var lo, hi, tick := previous.bar.end, record.bar.end, TickOf(cfg, day);
    var now := if lo < tick <= hi then AtTick(cfg, s, previous, record, tape, c, tick) else Exits(s, [], c);
    var rest := Days(cfg, now.state, previous, record, tape, now.cursor, day + 1);
    var whole := Days(cfg, s, previous, record, tape, c, day);
    assert whole == Exits(rest.state, now.trades + rest.trades, rest.cursor);
    hide Days;
    assert Span(cfg, s, now.state, now.trades, lo, hi);
    SpanCompose(cfg, s, now.state, rest.state, now.trades, rest.trades, lo, hi);
    forall d | day <= d && lo < TickOf(cfg, d) <= hi
      ensures whole.state.side == Flat && (whole.trades != [] ==> whole.trades[0].decision.at <= TickOf(cfg, d))
    {
      TicksIncrease(cfg, day, d);
      if lo < tick <= hi {
        assert whole.trades == now.trades;
      } else {
        assert d != day && whole.trades == rest.trades;
      }
    }
  }

  /** Between two closes: at most one exit, inside the interval, and nothing held past a 04:55. */
  lemma BetweenSpan(cfg: Config, s: State, previous: BarRecord, record: BarRecord, tape: Option<Tape>)
    requires cfg.Usable() && Whole(s) && previous.bar.end <= record.bar.end
    ensures var fed := BetweenCloses(cfg, s, previous, record, tape);
            && Span(cfg, s, fed.state, fed.trades, previous.bar.end, record.bar.end)
            && forall d :: previous.bar.end < TickOf(cfg, d) <= record.bar.end ==>
                 fed.state.side == Flat && (fed.trades != [] ==> fed.trades[0].decision.at <= TickOf(cfg, d))
  {
    hide Days, MaybeExits, IsExit, Sound, TickOf;
    var lo, hi := previous.bar.end, record.bar.end;
    DaysSpan(cfg, s, previous, record, tape, From(lo), DateOf(lo));
    var days := Days(cfg, s, previous, record, tape, From(lo), DateOf(lo));
    MaybeExitsSpan(cfg, days.state, record, tape, days.cursor, hi, lo);
    var last := MaybeExits(cfg, days.state, record, tape, days.cursor, hi);
    SpanCompose(cfg, s, days.state, last.state, days.trades, last.trades, lo, hi);
    forall d | lo < TickOf(cfg, d) <= hi
      ensures last.state.side == Flat
          && (days.trades + last.trades != [] ==> (days.trades + last.trades)[0].decision.at <= TickOf(cfg, d))
    {
      LaterTick(cfg, lo, d);
      assert days.state.side == Flat && last.trades == [];
      assert days.trades + last.trades == days.trades;
    }
  }
}
