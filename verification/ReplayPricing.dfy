/** How a replay prices its exits against the recorded trades: which windows it searches, and the price
    at which the 04:55 flatten is taken. */
module ReplayPricing {
  import opened Domain
  import opened MovingAverage
  import opened EngineModel
  import opened EngineProofs
  import opened ReplayModel
  import opened SkipProofs
  import opened SkipExact
  import opened ReplayProofs
  import opened ReplayLog

  // ---- windows of a replay ----

  /** With no 04:55 instant since `p`, an instant is in the band only if `p` was. */
  lemma OutsideBandUntilTick(cfg: Config, p: int, x: int)
    requires cfg.Usable() && !cfg.InBand(p) && p <= x
    requires forall d :: !(p < TickOf(cfg, d) <= x)
    ensures !cfg.InBand(x)
  {
    assert !(p < TickOf(cfg, DateOf(x)) <= x);
  }

  /** A held position is always searched for exits outside the flatten band, so in every replay the skip
      finds the exits of feeding every recorded trade: up to the first 04:55 instant or the next close,
      provided trades inside the bar respect its range and a bar that reached the stop has a recorded trade
      that did. */
  lemma ReplaySkipsSafely(cfg: Config, r: Replay, record: BarRecord, tape: Tape, before: int, start: int, end: int)
    requires cfg.Usable() && ReplayOk(cfg, r, start, end) && IsOpen(r.engine)
    requires forall d :: !(r.previous.value.bar.end < TickOf(cfg, d) < before)
    requires forall p | p in tape && r.previous.value.bar.end <= p.at < before && p.at >= record.bar.start ::
               record.bar.low <= p.price <= record.bar.high
    requires BarReachesStop(cfg, r.engine.value, record.bar) ==>
               exists p :: p in tape && r.previous.value.bar.end <= p.at < before
                           && AtOrPast(r.engine.value.side, p.price, StopLossPrice(cfg, r.engine.value).value)
    ensures Agree(cfg, r.engine.value, record, tape, From(r.previous.value.bar.end), before)
  {
    var s, p := r.engine.value, r.previous.value.bar.end;
    var c := From(p);
    hide Agree, LogOk, Sound, TickOf;
    forall k | Next(tape, c) <= k < Limit(tape, c, before)
      ensures !cfg.InBand(tape[k].at)
      ensures tape[k].at >= record.bar.start ==> record.bar.low <= tape[k].price <= record.bar.high
    {
      assert tape[k] in tape && p <= tape[k].at < before;
      OutsideBandUntilTick(cfg, p, tape[k].at);
    }
    assert Consistent(cfg, record, tape, c, before);
    if BarReachesStop(cfg, s, record.bar) {
      var reaching :| reaching in tape && p <= reaching.at < before
          && AtOrPast(s.side, reaching.price, StopLossPrice(cfg, s).value);
      var k :| 0 <= k < |tape| && tape[k] == reaching;
      assert Next(tape, c) <= k < Limit(tape, c, before);
    }
    SkipAgreesWhenStopIsRecorded(cfg, s, record, tape, c, before);
  }

  // ---- the price of the flatten ----

  /** Where a search that closed nothing stopped, and the price it left behind. */
  ghost predicate Stopped(s: State, record: BarRecord, tape: Tape, c: Cursor, before: int, e: Exits)
    requires OnTape(tape, c)
  {
    || (e.cursor == c && e.state.lastPrice == s.lastPrice)
    || (e.cursor.After? && Next(tape, c) <= e.cursor.index < |tape| && tape[e.cursor.index].at < before
        && e.state.lastPrice == Some(tape[e.cursor.index].price))
    || (e.cursor == From(record.bar.start) && CursorTime(tape, c) < record.bar.start < before
        && (e.state.lastPrice == s.lastPrice || LowerBound(tape, record.bar.start) > Next(tape, c)))
  }

  lemma {:induction false} SearchStops(cfg: Config, s: State, record: BarRecord, tape: Tape, c: Cursor, before: int)
    requires cfg.Usable() && Whole(s) && OnTape(tape, c) && TradeExits(cfg, s, record, tape, c, before).trades == []
    ensures Stopped(s, record, tape, c, before, TradeExits(cfg, s, record, tape, c, before))
    decreases |tape| - Next(tape, c), if CursorTime(tape, c) < record.bar.start then 1 else 0
  {
    hide FeedOne, Sound, ExitWatchPrices, FirstBeyond, IsExit;
    var band, from, bar := ExitWatchPrices(cfg, s), CursorTime(tape, c), record.bar;
    if band.Some? && !(from >= bar.start && BarInside(bar, band.value)) {
      var windowEnd := WindowEnd(bar, from, before);
      var hit := FirstBeyond(tape, Next(tape, c), windowEnd, band.value);
      if hit.Some? {
        HitInWindow(tape, c, before, hit.value, windowEnd);
        var fed := FeedOne(cfg, s, record, tape[hit.value].price, tape[hit.value].at);
        FeedOneSpan(cfg, s, record, tape[hit.value].price, tape[hit.value].at);
        FeedOneShape(cfg, s, record, tape[hit.value].price, tape[hit.value].at);
        SearchStops(cfg, fed.state, record, tape, After(hit.value), before);
      } else if windowEnd < before {
        NextAdvances(tape, c, windowEnd);
        SearchStops(cfg, s, record, tape, From(windowEnd), before);
      } else if from >= bar.start && BarReachesStop(cfg, s, bar) {
        StopAlwaysFills(cfg, s, record, StopFillPrice(s.side, bar, StopLossPrice(cfg, s).value), before);
      }
    }
  }

  /** The bar begins inside the window but after trades that no later trade up to the tick covers. */
  ghost predicate HoleUncovered(previous: BarRecord, record: BarRecord, tape: Tape, tick: int) {
    && previous.bar.end < record.bar.start < tick
    && LastAtOrBefore(tape, From(previous.bar.end), tick).Some?
    && LastAtOrBefore(tape, From(record.bar.start), tick).None?
  }

  /** The price of the single exit that the 04:55 step takes of a position still open then. */
  lemma FlattenPrice(cfg: Config, s: State, previous: BarRecord, record: BarRecord, tape: Tape, tick: int)
    requires cfg.Usable() && Whole(s) && s.side != Flat && previous.bar.end <= tick && cfg.InBand(tick)
    requires TradeExits(cfg, s, record, tape, From(previous.bar.end), tick).trades == []
    ensures var c := From(previous.bar.end);
            var e := AtTick(cfg, s, previous, record, Some(tape), c, tick);
            var a := TradeExits(cfg, s, record, tape, c, tick);
            var last := LastAtOrBefore(tape, a.cursor, tick);
            && |e.trades| == 1 && e.state.side == Flat
            && e.trades[0].decision.price == if last.Some? then Some(tape[last.value].price) else a.state.lastPrice
  {
    var c := From(previous.bar.end);
    var a := TradeExits(cfg, s, record, tape, c, tick);
    TradeExitsSpan(cfg, s, record, tape, c, tick, previous.bar.end);
    assert MaybeExits(cfg, s, record, Some(tape), c, tick) == a;
    var b := LastTrade(cfg, a.state, record, Some(tape), a.cursor, tick);
    var last := LastAtOrBefore(tape, a.cursor, tick);
    LastTradeSpan(cfg, a.state, record, Some(tape), a.cursor, tick, previous.bar.end);
    if last.Some? {
      FeedOnePrice(cfg, a.state, record, tape[last.value].price, tape[last.value].at);
    }
    hide TradeExits, FeedOne, Sound, IsExit;
    var clock := Clock(cfg, b.state, previous, tick);
    ClockSpan(cfg, b.state, previous, tick);
    ClockPrice(cfg, b.state, previous, tick);
    hide LastTrade, Clock;
    var e := AtTick(cfg, s, previous, record, Some(tape), c, tick);
    assert e.trades == a.trades + b.trades + clock.trades;
    if b.trades != [] {
      assert e.trades == b.trades;
    } else {
      assert e.trades == clock.trades;
    }
  }

  lemma FeedOnePrice(cfg: Config, s: State, record: BarRecord, price: real, at: int)
    requires cfg.Usable() && Whole(s)
    ensures var fed := FeedOne(cfg, s, record, price, at);
            fed.state.lastPrice == Some(price) && (fed.trades != [] ==> fed.trades[0].decision.price == Some(price))
  {
    FeedOneShape(cfg, s, record, price, at);
    var priced := s.(lastPrice := Some(price));
    var ctx := ContextOf(cfg, priced, Input(at, None, TradePrice, true, false, false));
    DecideToExit(cfg, priced, ctx);
    hide Decide, ContextOf;
  }

  lemma ClockPrice(cfg: Config, s: State, previous: BarRecord, tick: int)
    requires cfg.Usable() && Whole(s)
    ensures var fed := Clock(cfg, s, previous, tick); fed.trades != [] ==> fed.trades[0].decision.price == s.lastPrice
  {
    var ctx := ContextOf(cfg, s, Input(tick, None, ClockTick, true, false, false));
    DecideToExit(cfg, s, ctx);
    hide Decide, ContextOf;
  }

  /** The documented price: unless trades in a hole before the bar are its last trades, a position still
      open at 04:55 is flattened at the last recorded trade up to it. */
  lemma FlattensAtLastTrade(cfg: Config, s: State, previous: BarRecord, record: BarRecord, tape: Tape, tick: int)
    requires cfg.Usable() && Whole(s) && s.side != Flat && previous.bar.end <= tick && cfg.InBand(tick)
    requires TradeExits(cfg, s, record, tape, From(previous.bar.end), tick).trades == []
    requires !HoleUncovered(previous, record, tape, tick)
    ensures var c := From(previous.bar.end);
            var last := LastAtOrBefore(tape, c, tick);
            var e := AtTick(cfg, s, previous, record, Some(tape), c, tick);
            |e.trades| == 1 && e.trades[0].decision.price
              == if last.Some? then Some(tape[last.value].price) else s.lastPrice
  {
    hide TradeExits, AtTick, Whole;
    var c := From(previous.bar.end);
    FlattenPrice(cfg, s, previous, record, tape, tick);
    SearchStops(cfg, s, record, tape, c, tick);
    var a := TradeExits(cfg, s, record, tape, c, tick);
    var end := LowerBound(tape, tick + 1);
    if a.cursor == c {
    } else if a.cursor.After? {
      assert a.cursor.index < end;
    } else {
      NextAdvances(tape, c, record.bar.start);
      assert LowerBound(tape, record.bar.start) <= end by {
        NextAdvances(tape, From(record.bar.start), tick + 1);
      }
    }
  }

  /** The hole first: a search that closes nothing there continues from the bar's start. */
  lemma {:induction false} HoleFirst(cfg: Config, s: State, record: BarRecord, tape: Tape, c: Cursor, before: int)
    requires cfg.Usable() && Whole(s) && OnTape(tape, c) && CursorTime(tape, c) < record.bar.start < before
    requires TradeExits(cfg, s, record, tape, c, before).trades == [] && s.side != Flat
    ensures var hole := TradeExits(cfg, s, record, tape, c, record.bar.start);
            && hole.trades == []
            && TradeExits(cfg, s, record, tape, c, before)
                == TradeExits(cfg, hole.state, record, tape, From(record.bar.start), before)
    decreases |tape| - Next(tape, c)
  {
    WatchedWhileOpen(cfg, s);
    hide FeedOne, Sound, ExitWatchPrices, FirstBeyond, IsExit;
    var hit := FirstBeyond(tape, Next(tape, c), record.bar.start, ExitWatchPrices(cfg, s).value);
    if hit.Some? {
      HitInWindow(tape, c, record.bar.start, hit.value, record.bar.start);
      var fed := FeedOne(cfg, s, record, tape[hit.value].price, tape[hit.value].at);
      FeedOneSpan(cfg, s, record, tape[hit.value].price, tape[hit.value].at);
      assert fed.trades == [];
      HoleFirst(cfg, fed.state, record, tape, After(hit.value), before);
      var rest := TradeExits(cfg, fed.state, record, tape, After(hit.value), before);
      assert [] + rest.trades == rest.trades;
    }
  }

  // ---- the price carried out of a hole ----

  /** The most favourable price of the trades from `i` up to `j`. */
  function MostFavourable(side: PositionSide, tape: Tape, i: nat, j: nat): (r: Option<real>)
    requires i <= j <= |tape|
    ensures r.None? <==> i == j
    ensures r.Some? ==> exists k :: i <= k < j && tape[k].price == r.value
    ensures r.Some? ==> forall k | i <= k < j :: AtOrBeyond(side, r.value, tape[k].price)
    decreases j - i
  {
    if i == j then None
    else
      var rest := MostFavourable(side, tape, i + 1, j);
      if rest.Some? && AtOrBeyond(side, rest.value, tape[i].price) then rest else Some(tape[i].price)
  }

  /** What a search that closes nothing leaves as the last price: the most favourable trade if one reaches the
      favourable edge, and otherwise the price before. */
  function Carried(cfg: Config, s: State, tape: Tape, i: nat, j: nat): Option<real>
    requires i <= j <= |tape| && ExitWatchPrices(cfg, s).Some?
  {
    var best := MostFavourable(s.side, tape, i, j);
    if best.Some? && AtOrBeyond(s.side, best.value, Favourable(cfg, s)) then best else s.lastPrice
  }

  /** A hit that does not close the position is at the favourable edge, and becomes the edge. */
  lemma HitMovesEdge(cfg: Config, s: State, record: BarRecord, price: real, at: int)
    requires cfg.Usable() && Held(s) && s.side != Flat && ExitWatchPrices(cfg, s).Some?
    requires Beyond(ExitWatchPrices(cfg, s).value, price) && FeedOne(cfg, s, record, price, at).trades == []
    ensures var t := FeedOne(cfg, s, record, price, at).state;
            && AtOrBeyond(s.side, price, Favourable(cfg, s))
            && Held(t) && t.side == s.side && t.lastPrice == Some(price)
            && ExitWatchPrices(cfg, t).Some? && Favourable(cfg, t) == price
  {
    FeedOneShape(cfg, s, record, price, at);
    FedExactlyOnSignal(cfg, s, record, price, at);
    ExitsExactlyPastAdverseEdge(cfg, s, price, at, false);
    FeedOneFollows(cfg, s, record, price, at);
    FavourableInPoints(cfg, s, price);
    var t := FeedOne(cfg, s, record, price, at).state;
    WatchedWhileOpen(cfg, t);
    FavourableInPoints(cfg, t, price);
    hide FeedOne, OnTrade, Mean, FollowedEdge, ExitWatchPrices, IsExit;
  }

  lemma CarriedPastHit(cfg: Config, s: State, t: State, tape: Tape, i: nat, hit: nat, j: nat)
    requires i <= hit < j <= |tape| && ExitWatchPrices(cfg, s).Some? && ExitWatchPrices(cfg, t).Some?
        && t.side == s.side != Flat
    requires forall k | i <= k < hit :: !Beyond(ExitWatchPrices(cfg, s).value, tape[k].price)
    requires AtOrBeyond(s.side, tape[hit].price, Favourable(cfg, s))
    requires Favourable(cfg, t) == tape[hit].price && t.lastPrice == Some(tape[hit].price)
    ensures Carried(cfg, s, tape, i, j) == Carried(cfg, t, tape, hit + 1, j)
  {
    hide ExitWatchPrices, MostFavourable;
    assert tape[hit].price == tape[hit].price;
    var all, rest := MostFavourable(s.side, tape, i, j), MostFavourable(t.side, tape, hit + 1, j);
    var k :| i <= k < j && tape[k].price == all.value;
    assert AtOrBeyond(s.side, all.value, tape[hit].price);
    if rest.Some? {
      var m :| hit + 1 <= m < j && tape[m].price == rest.value;
      assert AtOrBeyond(s.side, all.value, tape[m].price);
    }
  }

  lemma CarriedQuietly(cfg: Config, s: State, tape: Tape, i: nat, j: nat)
    requires i <= j <= |tape| && ExitWatchPrices(cfg, s).Some? && s.side != Flat
    requires forall k | i <= k < j :: !Beyond(ExitWatchPrices(cfg, s).value, tape[k].price)
    ensures Carried(cfg, s, tape, i, j) == s.lastPrice
  {
    hide ExitWatchPrices, MostFavourable;
  }

  lemma {:induction false} HoleCarries(cfg: Config, s: State, record: BarRecord, tape: Tape, c: Cursor)
    requires cfg.Usable() && Held(s) && s.side != Flat && OnTape(tape, c) && CursorTime(tape, c) < record.bar.start
    requires ExitWatchPrices(cfg, s).Some? && TradeExits(cfg, s, record, tape, c, record.bar.start).trades == []
    ensures TradeExits(cfg, s, record, tape, c, record.bar.start).state.lastPrice
         == Carried(cfg, s, tape, Next(tape, c), Limit(tape, c, record.bar.start))
    decreases |tape| - Next(tape, c)
  {
    hide FeedOne, Sound, ExitWatchPrices, FirstBeyond, IsExit, Carried, Favourable;
    var i, before := Next(tape, c), record.bar.start;
    var hit := FirstBeyond(tape, i, before, ExitWatchPrices(cfg, s).value);
    if hit.Some? {
      HitInWindow(tape, c, before, hit.value, before);
      var fed := FeedOne(cfg, s, record, tape[hit.value].price, tape[hit.value].at);
      assert fed.trades == [];
      HitMovesEdge(cfg, s, record, tape[hit.value].price, tape[hit.value].at);
      HoleCarries(cfg, fed.state, record, tape, After(hit.value));
      CarriedPastHit(cfg, s, fed.state, tape, i, hit.value, Limit(tape, c, before));
    } else {
      CarriedQuietly(cfg, s, tape, i, Limit(tape, c, before));
    }
  }

  /** When the hole is uncovered, the flatten is priced at what the search carried out of it. */
  lemma UncoveredHolePrice(cfg: Config, s: State, previous: BarRecord, record: BarRecord, tape: Tape, tick: int)
    requires cfg.Usable() && Whole(s) && s.side != Flat && previous.bar.end <= tick && cfg.InBand(tick)
    requires TradeExits(cfg, s, record, tape, From(previous.bar.end), tick).trades == []
    requires HoleUncovered(previous, record, tape, tick)
    ensures var c := From(previous.bar.end);
            var e := AtTick(cfg, s, previous, record, Some(tape), c, tick);
            && |e.trades| == 1 && ExitWatchPrices(cfg, s).Some?
            && e.trades[0].decision.price == Carried(cfg, s, tape, Next(tape, c), Limit(tape, c, record.bar.start))
  {
    var c := From(previous.bar.end);
    WatchedWhileOpen(cfg, s);
    FlattenPrice(cfg, s, previous, record, tape, tick);
    HoleFirst(cfg, s, record, tape, c, tick);
    HoleCarries(cfg, s, record, tape, c);
    TradeExitsSpan(cfg, s, record, tape, c, record.bar.start, previous.bar.end);
    var hole := TradeExits(cfg, s, record, tape, c, record.bar.start);
    SearchStops(cfg, hole.state, record, tape, From(record.bar.start), tick);
    hide TradeExits, AtTick, Sound, Carried, ExitWatchPrices;
  }

  /** Exactly when the documented price is met: a position still open at 04:55 is flattened at the last recorded
      trade up to then if and only if that trade is not in an uncovered hole, or it is the one carried out of
      it. */
  lemma FlattensAtLastTradeExactly(cfg: Config, s: State, previous: BarRecord, record: BarRecord, tape: Tape, tick: int)
    requires cfg.Usable() && Whole(s) && s.side != Flat && previous.bar.end <= tick && cfg.InBand(tick)
    requires TradeExits(cfg, s, record, tape, From(previous.bar.end), tick).trades == []
    ensures var c := From(previous.bar.end);
            var last := LastAtOrBefore(tape, c, tick);
            var documented := if last.Some? then Some(tape[last.value].price) else s.lastPrice;
            var e := AtTick(cfg, s, previous, record, Some(tape), c, tick);
            && |e.trades| == 1 && ExitWatchPrices(cfg, s).Some?
            && (e.trades[0].decision.price == documented <==>
                  !HoleUncovered(previous, record, tape, tick)
                  || Carried(cfg, s, tape, Next(tape, c), Limit(tape, c, record.bar.start)) == documented)
  {
    WatchedWhileOpen(cfg, s);
    hide TradeExits, AtTick, Whole, Carried, ExitWatchPrices, LastAtOrBefore;
    if HoleUncovered(previous, record, tape, tick) {
      UncoveredHolePrice(cfg, s, previous, record, tape, tick);
    } else {
      FlattensAtLastTrade(cfg, s, previous, record, tape, tick);
    }
  }

  // ---- a replay that misses it ----

  function NightBar(start: int, close: real): BarRecord {
    BarRecord(Bar(Mxf, "202510", close, close, close, close, 1, start, start + HOUR), true)
  }

  /** The entry at the 01:00 close. */
  const ENTRY := HistoricalTrade(NightBar(0, 20000.0),
                                 Decision(Some(IntentKey("202510", EnterLongRule, AtInstant(0))), HOUR, BarClosed,
                                          Some(NightBar(0, 20000.0).bar), Some(20000.0), None, None, Level, 0, true,
                                              Flat, 0, None,
                                          false, None, Some(EnterLong), EnterLongRule, true), Buy, MAX_LOTS)

  /** Held since 01:00, last closed at 02:00. */
  const OPEN_REPLAY := Replay(Some(HELD), Some(NightBar(HOUR, 20010.0)), [ENTRY], [])

  lemma OpenReplayIsOk()
    ensures ReplayOk(DEFAULT_CONFIG, OPEN_REPLAY, HOUR, 2 * HOUR)
  {
    HeldIsSound();
    var cfg := DEFAULT_CONFIG;
    assert LogOk(cfg, [ENTRY], HOUR, 2 * HOUR);
    forall d ensures !(HOUR < TickOf(cfg, d) <= 2 * HOUR) {
      TicksIncrease(cfg, d, -1);
      TicksIncrease(cfg, 0, d);
    }
    hide LogOk, Sound, TickOf;
  }

  /** A trade at 03:00 inside a two-hour hole, no trade from 04:00 on: the replay flattens at 04:55 at the
      previous close, 20010, and not at the last trade, 20100. */
  lemma StaleFlattenExample(nextClose: int -> int)
    requires nextClose(2 * HOUR) != 5 * HOUR
    ensures var cfg, tape: Tape := DEFAULT_CONFIG, [Print(3 * HOUR, 20100.0)];
            var r := ReplayRecord(cfg, OPEN_REPLAY, NightBar(4 * HOUR, 20010.0), nextClose, Some(_ => tape));
            && ReplayOk(cfg, OPEN_REPLAY, HOUR, 2 * HOUR)
            && |r.trades| == 2 && r.trades[0] == ENTRY && r.trades[1].decision.at == cfg.eodFlatten
            && r.trades[1].decision.price == Some(20010.0)
            && LastAtOrBefore(tape, From(2 * HOUR), cfg.eodFlatten) == Some(0) && tape[0].price == 20100.0
  {
    OpenReplayIsOk();
    HeldIsSound();
    var cfg, tape: Tape := DEFAULT_CONFIG, [Print(3 * HOUR, 20100.0)];
    var record := NightBar(4 * HOUR, 20010.0);
    assert LowerBound(tape, 2 * HOUR) == 0 && LowerBound(tape, cfg.eodFlatten + 1) == 1;
    StaleBetween();
    var between := BetweenCloses(cfg, HELD, NightBar(HOUR, 20010.0), record, Some(tape));
    hide BetweenCloses, Sound, Close, ReplayOk, LastAtOrBefore;
    CloseShape(cfg, between.state, record);
    assert cfg.InBand(record.bar.end) && Close(cfg, between.state, record).trades == [];
    assert ResetHistory(HELD) == HELD;
    assert AfterHole(SwitchContract(OPEN_REPLAY, record), record, nextClose) == OPEN_REPLAY;
    assert Through(cfg, OPEN_REPLAY, record, Some(_ => tape)).trades == between.trades + [];
  }

  /** Between the two closes: one exit, at 04:55, at the stale price. */
  lemma StaleBetween()
    ensures var cfg, tape: Tape := DEFAULT_CONFIG, [Print(3 * HOUR, 20100.0)];
            var fed := BetweenCloses(cfg, HELD, NightBar(HOUR, 20010.0), NightBar(4 * HOUR, 20010.0), Some(tape));
            && Whole(fed.state) && fed.state.side == Flat && fed.state.contract == "202510"
                && fed.state.instrument == Mxf
            && |fed.trades| == 1 && fed.trades[0].decision.at == cfg.eodFlatten
                && fed.trades[0].decision.price == Some(20010.0)
  {
    var cfg, tape: Tape := DEFAULT_CONFIG, [Print(3 * HOUR, 20100.0)];
    var previous, record, tick := NightBar(HOUR, 20010.0), NightBar(4 * HOUR, 20010.0), cfg.eodFlatten;
    HeldIsSound();
    HoleIsStale();
    assert DateOf(previous.bar.end) == DateOf(record.bar.end) == 0 && TickOf(cfg, 0) == tick && cfg.InBand(tick);
    hide AtTick, Sound, IsExit;
    var e := AtTick(cfg, HELD, previous, record, Some(tape), From(2 * HOUR), tick);
    AtTickFlattens(cfg, HELD, previous, record, Some(tape), From(2 * HOUR), tick, 2 * HOUR);
    assert Days(cfg, e.state, previous, record, Some(tape), e.cursor, 1) == Exits(e.state, [], e.cursor);
    assert e.trades + [] == e.trades;
    assert Days(cfg, HELD, previous, record, Some(tape), From(2 * HOUR), 0) == Exits(e.state, e.trades, e.cursor);
    assert ExitWatchPrices(cfg, e.state) == None;
    assert MaybeExits(cfg, e.state, record, Some(tape), e.cursor, record.bar.end) == Exits(e.state, [], e.cursor);
  }

  lemma HoleIsStale()
    ensures var cfg, tape: Tape := DEFAULT_CONFIG, [Print(3 * HOUR, 20100.0)];
            var e := AtTick(cfg, HELD, NightBar(HOUR, 20010.0), NightBar(4 * HOUR, 20010.0), Some(tape), From(2 * HOUR),
                cfg.eodFlatten);
            |e.trades| == 1 && e.trades[0].decision.price == Some(20010.0) && e.trades[0].decision.at == cfg.eodFlatten
  {
    var cfg, tape: Tape := DEFAULT_CONFIG, [Print(3 * HOUR, 20100.0)];
    var previous, record, tick, c := NightBar(HOUR, 20010.0), NightBar(4 * HOUR, 20010.0), cfg.eodFlatten,
        From(2 * HOUR);
    HeldIsSound();
    assert LowerBound(tape, 2 * HOUR) == 0;
    assert LowerBound(tape, 4 * HOUR) == LowerBound(tape, tick + 1) == 1;
    assert FirstBeyond(tape, 0, 4 * HOUR, Band(19700.0, 20300.0)) == None;
    assert TradeExits(cfg, HELD, record, tape, From(4 * HOUR), tick) == Exits(HELD, [], From(4 * HOUR));
    assert TradeExits(cfg, HELD, record, tape, c, tick) == Exits(HELD, [], From(4 * HOUR));
    hide TradeExits, AtTick;
    FlattenPrice(cfg, HELD, previous, record, tape, tick);
  }
}
