/** The skip over recorded trades refines feeding every one of them. */
module SkipProofs {
  import opened Domain
  import opened EngineModel
  import opened EngineProofs
  import opened ReplayModel

  /** A sound engine with no partial close pending, as every replay keeps it. */
  ghost predicate Held(s: State) {
    Sound(s) && s.closedQuantity == 0
  }

  ghost predicate SameButPrice(s: State, t: State) {
    s.(lastPrice := t.lastPrice) == t
  }

  /** Only the last price and the profit tracking may differ. */
  ghost predicate SamePosition(s: State, t: State) {
    s.(lastPrice := t.lastPrice, profitActivated := t.profitActivated, maxFavorable := t.maxFavorable) == t
  }

  /** The exit a decision at `now` makes of the position in `s`. */
  ghost predicate IsExit(cfg: Config, s: State, t: HistoricalTrade, now: int) {
    && s.side != Flat
    && t.decision.signal == Some(ExitAll) && t.decision.at == now && t.decision.key.Some?
    && t.quantity == |s.lots| && t.side == (if s.side == Long then Sell else Buy)
    && t.decision.key.value.contract == s.contract
    && t.decision.rule == t.decision.key.value.rule
    && (cfg.InBand(now) ==> t.decision.key.value == IntentKey(s.contract, EodFlatten, OnDate(DateOf(now))))
    && (!cfg.InBand(now) ==> t.decision.rule in {StopLoss, ProfitPullback}
                             && (s.lastBarStart.Some? ==>
                                   t.decision.key.value.bucket == AtInstant(s.lastBarStart.value)))
  }

  /** Deciding on a trade or a tick either leaves the position alone or closes all of it. */
  ghost predicate LeavesOrCloses(cfg: Config, s: State, fed: Fed, now: int) {
    && Held(fed.state)
    && (fed.trades == [] ==> SamePosition(s, fed.state))
    && (fed.trades != [] ==> |fed.trades| == 1 && fed.state.side == Flat && IsExit(cfg, s, fed.trades[0], now)
                             && fed.state == Reset(s).(lastPrice := fed.state.lastPrice))
  }

  /** What can be decided when no entry can, and the state it leaves. */
  lemma DecideToExit(cfg: Config, s: State, ctx: Context)
    requires cfg.Usable() && Held(s) && (ctx.bar.None? || s.side != Flat)
    ensures var o := Decide(cfg, s, ctx);
            && SamePosition(s, o.state) && o.state.lastPrice == s.lastPrice && Held(o.state)
            && (o.decision.signal == None || IsExitDecision(cfg, s, o.decision, ctx.now))
            && (s.side != Flat && cfg.InBand(ctx.now) && !ctx.activeOrder ==> o.decision.signal != None)
  {
    DecideKeepsSound(cfg, s, ctx);
    assert Decide(cfg, s, ctx).state in {s, TrackProfit(cfg, s)};
  }

  ghost predicate IsExitDecision(cfg: Config, s: State, d: Decision, now: int) {
    && s.side != Flat && d.signal == Some(ExitAll) && d.passed && d.at == now && d.price == s.lastPrice
    && d.side == s.side && d.lots == |s.lots| && d.key.Some?
    && d.key.value.contract == s.contract && d.rule == d.key.value.rule
    && (cfg.InBand(now) ==> d.key.value == IntentKey(s.contract, EodFlatten, OnDate(DateOf(now))))
    && (!cfg.InBand(now) ==> d.rule in {StopLoss, ProfitPullback}
                             && (s.lastBarStart.Some? ==> d.key.value.bucket == AtInstant(s.lastBarStart.value)))
  }

  lemma AcceptExit(cfg: Config, s: State, record: BarRecord, ctx: Context)
    requires cfg.Usable() && Held(s) && (ctx.bar.None? || s.side != Flat) && (s.side != Flat ==> s.lastPrice.Some?)
    ensures var o := Decide(cfg, s, ctx);
            var fed := Accept(o.state, record, o.decision);
            && LeavesOrCloses(cfg, s, fed, ctx.now) && fed.state.lastPrice == s.lastPrice
            && (s.side != Flat && cfg.InBand(ctx.now) && !ctx.activeOrder ==> fed.trades != [])
  {
    DecideToExit(cfg, s, ctx);
    hide Decide;
    var o := Decide(cfg, s, ctx);
    if o.decision.signal != None {
      assert OnFill(o.state, SideOf(o.decision), s.lastPrice.value, |s.lots|, ctx.now) == Reset(o.state);
    } else {
      assert Accept(o.state, record, o.decision) == Fed(o.state, []);
    }
  }

  lemma FeedOneShape(cfg: Config, s: State, record: BarRecord, price: real, at: int)
    requires cfg.Usable() && Held(s)
    ensures LeavesOrCloses(cfg, s, FeedOne(cfg, s, record, price, at), at)
    ensures FeedOne(cfg, s, record, price, at).state.lastPrice == Some(price)
    ensures s.side != Flat && cfg.InBand(at) ==> FeedOne(cfg, s, record, price, at).trades != []
  {
    hide Decide, Accept, MaOf, Choppy, Mean, IsExit;
    var priced := s.(lastPrice := Some(price));
    var input := Input(at, None, TradePrice, true, false, false);
    assert ArmBreakout(cfg, priced, input) == priced;
    AcceptExit(cfg, priced, record, ContextOf(cfg, priced, input));
    SamePlace(cfg, s, priced, FeedOne(cfg, s, record, price, at), at);
  }

  /** What the engine holds does not depend on the last price. */
  lemma SamePlace(cfg: Config, s: State, priced: State, fed: Fed, at: int)
    requires SameButPrice(s, priced) && LeavesOrCloses(cfg, priced, fed, at)
    ensures LeavesOrCloses(cfg, s, fed, at)
  {
    hide Held;
    assert s.side == priced.side && s.lots == priced.lots && s.contract == priced.contract;
    assert s.lastBarStart == priced.lastBarStart;
  }

  lemma FeedOneFlat(cfg: Config, s: State, record: BarRecord, price: real, at: int)
    requires cfg.Usable() && Held(s) && s.side == Flat
    ensures FeedOne(cfg, s, record, price, at) == Fed(s.(lastPrice := Some(price)), [])
  {
    FeedOneShape(cfg, s, record, price, at);
    assert FeedOne(cfg, s, record, price, at).trades == [];
    FlatDecides(cfg, s.(lastPrice := Some(price)),
        ContextOf(cfg, s.(lastPrice := Some(price)), Input(at, None, TradePrice, true, false, false)));
  }

  /** A trade no engine in this state reacts to. */
  ghost predicate Quiet(cfg: Config, s: State, p: Print) {
    || s.side == Flat
    || (ExitWatchPrices(cfg, s).Some? && !Beyond(ExitWatchPrices(cfg, s).value, p.price) && !cfg.InBand(p.at))
  }

  lemma FeedOneQuiet(cfg: Config, s: State, record: BarRecord, p: Print)
    requires cfg.Usable() && Held(s) && Quiet(cfg, s, p)
    ensures FeedOne(cfg, s, record, p.price, p.at) == Fed(s.(lastPrice := Some(p.price)), [])
  {
    if s.side == Flat {
      FeedOneFlat(cfg, s, record, p.price, p.at);
    } else {
      InsideBandIsQuiet(cfg, s, p.price, p.at, false, false);
    }
  }

  lemma PriceIsForgotten(cfg: Config, s: State, t: State, record: BarRecord, price: real, at: int)
    requires cfg.Usable() && SameButPrice(s, t)
    ensures ExitWatchPrices(cfg, s) == ExitWatchPrices(cfg, t)
    ensures FeedOne(cfg, s, record, price, at) == FeedOne(cfg, t, record, price, at)
  {
    assert s.(lastPrice := Some(price)) == t.(lastPrice := Some(price));
    assert s.lots == t.lots && s.side == t.side && s.activeBasis == t.activeBasis;
    assert s.maxFavorable == t.maxFavorable && s.profitActivated == t.profitActivated;
    assert ProfitBasis(s) == ProfitBasis(t) && StopLossPrice(cfg, s) == StopLossPrice(cfg, t);
    hide Decide, Accept, ProfitBasis, StopLossPrice, WatchBand;
  }

  lemma {:induction false} FeedQuiet(cfg: Config, s: State, record: BarRecord, tape: Tape, i: nat, j: nat)
    requires cfg.Usable() && Held(s) && i <= j <= |tape|
    requires forall k | i <= k < j :: Quiet(cfg, s, tape[k])
    ensures Feed(cfg, s, record, tape, i, j)
         == Fed(s.(lastPrice := if i < j then Some(tape[j - 1].price) else s.lastPrice), [])
    decreases j - i
  {
    hide FeedOne, ExitWatchPrices;
    if i < j {
      FeedOneQuiet(cfg, s, record, tape[i]);
      var next := s.(lastPrice := Some(tape[i].price));
      PriceIsForgotten(cfg, s, next, record, 0.0, 0);
      assert forall k | i < k < j :: Quiet(cfg, s, tape[k]) ==> Quiet(cfg, next, tape[k]);
      FeedQuiet(cfg, next, record, tape, i + 1, j);
    }
  }

  lemma {:induction false} FeedSplit(cfg: Config, s: State, record: BarRecord, tape: Tape, i: nat, k: nat, j: nat)
    requires cfg.Usable() && i <= k <= j <= |tape|
    ensures var a := Feed(cfg, s, record, tape, i, k);
            var b := Feed(cfg, a.state, record, tape, k, j);
            Feed(cfg, s, record, tape, i, j) == Fed(b.state, a.trades + b.trades)
    decreases k - i
  {
    hide FeedOne;
    if i < k {
      var first := FeedOne(cfg, s, record, tape[i].price, tape[i].at);
      FeedSplit(cfg, first.state, record, tape, i + 1, k, j);
      var a := Feed(cfg, first.state, record, tape, i + 1, k);
      var b := Feed(cfg, a.state, record, tape, k, j);
      assert first.trades + (a.trades + b.trades) == (first.trades + a.trades) + b.trades;
    } else {
      assert [] + Feed(cfg, s, record, tape, k, j).trades == Feed(cfg, s, record, tape, k, j).trades;
    }
  }

  /** Once a price is fed, the price before it is forgotten. */
  lemma FeedForgetsPrice(cfg: Config, s: State, t: State, record: BarRecord, tape: Tape, i: nat, j: nat)
    requires cfg.Usable() && i <= j <= |tape| && SameButPrice(s, t)
    ensures var a, b := Feed(cfg, s, record, tape, i, j), Feed(cfg, t, record, tape, i, j);
            a.trades == b.trades && SameButPrice(a.state, b.state) && (i < j ==> a == b)
  {
    if i < j {
      assert s.(lastPrice := Some(tape[i].price)) == t.(lastPrice := Some(tape[i].price));
    }
  }

  // ---- the window and what the code needs of it ----

  /** The trades of a window: from the cursor up to `before`. */
  function Limit(tape: Tape, c: Cursor, before: int): (r: nat)
    requires OnTape(tape, c)
    ensures Next(tape, c) <= r <= |tape|
  {
    if LowerBound(tape, before) < Next(tape, c) then Next(tape, c) else LowerBound(tape, before)
  }

  /** Every trade of the window is outside the flatten band, and inside the bar's range once the bar
      has begun. */
  ghost predicate Consistent(cfg: Config, record: BarRecord, tape: Tape, c: Cursor, before: int)
    requires OnTape(tape, c)
  {
    forall k | Next(tape, c) <= k < Limit(tape, c, before) ::
      && !cfg.InBand(tape[k].at)
      && (tape[k].at >= record.bar.start ==> record.bar.low <= tape[k].price <= record.bar.high)
  }

  function Fully(cfg: Config, s: State, record: BarRecord, tape: Tape, c: Cursor, before: int): Fed
    requires cfg.Usable() && OnTape(tape, c)
  {
    Feed(cfg, s, record, tape, Next(tape, c), Limit(tape, c, before))
  }

  predicate BarReachesStop(cfg: Config, s: State, bar: Bar) {
    StopLossPrice(cfg, s).Some? && ReachesStop(s.side, bar, StopLossPrice(cfg, s).value)
  }

  /** The window touches the bar, the bar reached the stop, and yet no recorded trade closed the
      position: the code then assumes an unrecorded fill. */
  ghost predicate Unrecorded(cfg: Config, s: State, record: BarRecord, tape: Tape, c: Cursor, before: int)
    requires cfg.Usable() && OnTape(tape, c)
  {
    && BarReachesStop(cfg, s, record.bar)
    && (CursorTime(tape, c) >= record.bar.start || record.bar.start < before)
    && Fully(cfg, s, record, tape, c, before).state.side != Flat
  }

  lemma BandCoversStop(cfg: Config, s: State)
    requires Held(s) && s.side != Flat
    ensures var band, stop := ExitWatchPrices(cfg, s), StopLossPrice(cfg, s);
            band.Some? && stop.Some? && (if s.side == Long then band.value.low >= stop.value
                else band.value.high <= stop.value)
  {
  }

  /** The fast and the simple form agree up to the last price, or differ by exactly one assumed fill. */
  ghost predicate Agree(cfg: Config, s: State, record: BarRecord, tape: Tape, c: Cursor, before: int)
    requires cfg.Usable() && OnTape(tape, c)
  {
    var fast := TradeExits(cfg, s, record, tape, c, before);
    var full := Fully(cfg, s, record, tape, c, before);
    fast.trades == full.trades && SameButPrice(fast.state, full.state)
  }

  ghost predicate AssumedFill(cfg: Config, s: State, record: BarRecord, tape: Tape, c: Cursor, before: int)
    requires cfg.Usable() && OnTape(tape, c)
  {
    var fast := TradeExits(cfg, s, record, tape, c, before);
    && Fully(cfg, s, record, tape, c, before).trades == []
    && |fast.trades| == 1 && fast.state.side == Flat
    && fast.trades[0].decision.at == before
    && fast.trades[0].decision.price == Some(StopFillPrice(s.side, record.bar, StopLossPrice(cfg, s).value))
  }

  ghost predicate Refines(cfg: Config, s: State, record: BarRecord, tape: Tape, c: Cursor, before: int)
    requires cfg.Usable() && OnTape(tape, c)
  {
    if Unrecorded(cfg, s, record, tape, c, before) then AssumedFill(cfg, s, record, tape, c, before)
    else Agree(cfg, s, record, tape, c, before)
  }

  /** At or past the stop every trade closes the position, at any time of day. */
  lemma StopAlwaysFills(cfg: Config, s: State, record: BarRecord, price: real, at: int)
    requires cfg.Usable() && Held(s) && s.side != Flat
    requires AtOrPast(s.side, price, StopLossPrice(cfg, s).value)
    ensures var fed := FeedOne(cfg, s, record, price, at);
            |fed.trades| == 1 && fed.state.side == Flat && fed.trades[0].decision.at == at
            && fed.trades[0].decision.price == Some(price)
  {
    FeedOneShape(cfg, s, record, price, at);
    var priced := s.(lastPrice := Some(price));
    var ctx := ContextOf(cfg, priced, Input(at, None, TradePrice, true, false, false));
    assert CheckEod(cfg, priced, ctx).Some? || CheckStopLoss(cfg, priced, ctx).Some?;
  }

  lemma HitInWindow(tape: Tape, c: Cursor, before: int, hit: nat, windowEnd: int)
    requires OnTape(tape, c) && Next(tape, c) <= hit < |tape| && tape[hit].at < windowEnd <= before
    ensures hit < Limit(tape, c, before) == Limit(tape, After(hit), before)
    ensures tape[hit].at >= CursorTime(tape, c)
  {
    assert hit < LowerBound(tape, before);
  }

  /** Feeding everything up to and past the first trade outside the band. */
  lemma FullyPastHit(cfg: Config, s: State, record: BarRecord, tape: Tape, c: Cursor, before: int, hit: nat)
    requires cfg.Usable() && Held(s) && s.side != Flat && OnTape(tape, c) && Consistent(cfg, record, tape, c, before)
    requires ExitWatchPrices(cfg, s).Some?
    requires var band := ExitWatchPrices(cfg, s).value;
             var start := CursorTime(tape, c);
             && !(start >= record.bar.start && BarInside(record.bar, band))
             && FirstBeyond(tape, Next(tape, c), WindowEnd(record.bar, start, before), band) == Some(hit)
    ensures hit < Limit(tape, c, before) == Limit(tape, After(hit), before)
        && CursorTime(tape, After(hit)) >= CursorTime(tape, c)
    ensures var fed := FeedOne(cfg, s, record, tape[hit].price, tape[hit].at);
            var rest := Fully(cfg, fed.state, record, tape, After(hit), before);
            Fully(cfg, s, record, tape, c, before) == Fed(rest.state, fed.trades + rest.trades)
  {
    hide FeedOne, ExitWatchPrices, Sound, FirstBeyond;
    var i, j := Next(tape, c), Limit(tape, c, before);
    HitInWindow(tape, c, before, hit, WindowEnd(record.bar, CursorTime(tape, c), before));
    FeedQuiet(cfg, s, record, tape, i, hit);
    FeedSplit(cfg, s, record, tape, i, hit, j);
    var quiet := Feed(cfg, s, record, tape, i, hit).state;
    PriceIsForgotten(cfg, s, quiet, record, tape[hit].price, tape[hit].at);
    assert [] + Feed(cfg, quiet, record, tape, hit, j).trades == Feed(cfg, quiet, record, tape, hit, j).trades;
  }

  lemma AfterOne(cfg: Config, s: State, record: BarRecord, tape: Tape, before: int, hit: nat)
    requires cfg.Usable() && Held(s) && hit < |tape|
    ensures var fed := FeedOne(cfg, s, record, tape[hit].price, tape[hit].at);
            && (fed.trades == [] ==> StopLossPrice(cfg, fed.state) == StopLossPrice(cfg, s) && fed.state.side == s.side)
            && (fed.trades != [] ==>
                  fed.state.side == Flat && Fully(cfg, fed.state, record, tape, After(hit), before).state.side == Flat)
  {
    hide FeedOne, ExitWatchPrices, Sound, IsExit, Feed, LowerBound;
    FeedOneShape(cfg, s, record, tape[hit].price, tape[hit].at);
    var fed := FeedOne(cfg, s, record, tape[hit].price, tape[hit].at);
    if fed.trades != [] {
      FeedQuiet(cfg, fed.state, record, tape, hit + 1, Limit(tape, After(hit), before));
    }
  }

  lemma ExitsPastHit(cfg: Config, s: State, record: BarRecord, tape: Tape, c: Cursor, before: int, hit: nat)
    requires cfg.Usable() && Held(s) && s.side != Flat && OnTape(tape, c) && Consistent(cfg, record, tape, c, before)
    requires ExitWatchPrices(cfg, s).Some?
    requires var band := ExitWatchPrices(cfg, s).value;
             var start := CursorTime(tape, c);
             && !(start >= record.bar.start && BarInside(record.bar, band))
             && FirstBeyond(tape, Next(tape, c), WindowEnd(record.bar, start, before), band) == Some(hit)
    ensures var fed := FeedOne(cfg, s, record, tape[hit].price, tape[hit].at);
            var fast := TradeExits(cfg, fed.state, record, tape, After(hit), before);
            TradeExits(cfg, s, record, tape, c, before) == Exits(fast.state, fed.trades + fast.trades, fast.cursor)
  {
    hide FeedOne, ExitWatchPrices, FirstBeyond;
  }

  /** After an exit on the hit trade nothing more happens; otherwise the rest decides. */
  lemma Glue(cfg: Config, s: State, record: BarRecord, tape: Tape, c: Cursor, before: int, hit: nat, fed: Fed)
    requires cfg.Usable() && OnTape(tape, c) && hit < |tape| && OnTape(tape, After(hit)) && tape[hit].at < before
    requires CursorTime(tape, After(hit)) >= CursorTime(tape, c)
    requires fed.trades == [] ==> StopLossPrice(cfg, fed.state) == StopLossPrice(cfg, s) && fed.state.side == s.side
    requires fed.trades != [] ==>
        fed.state.side == Flat && Fully(cfg, fed.state, record, tape, After(hit), before).state.side == Flat
    requires Refines(cfg, fed.state, record, tape, After(hit), before)
    requires var rest := Fully(cfg, fed.state, record, tape, After(hit), before);
             Fully(cfg, s, record, tape, c, before) == Fed(rest.state, fed.trades + rest.trades)
    requires var fast := TradeExits(cfg, fed.state, record, tape, After(hit), before);
             TradeExits(cfg, s, record, tape, c, before) == Exits(fast.state, fed.trades + fast.trades, fast.cursor)
    ensures Refines(cfg, s, record, tape, c, before)
  {
    hide Fully, TradeExits, Next, StopLossPrice;
    var rest, fast := Fully(cfg, fed.state, record, tape, After(hit), before),
        TradeExits(cfg, fed.state, record, tape, After(hit), before);
    assert fed.trades == [] ==> fed.trades + fast.trades == fast.trades && fed.trades + rest.trades == rest.trades;
  }

  /** A first trade outside the band: both forms feed it and go on behind it. */
  lemma HitCase(cfg: Config, s: State, record: BarRecord, tape: Tape, c: Cursor, before: int, hit: nat)
    requires cfg.Usable() && Held(s) && s.side != Flat && OnTape(tape, c) && Consistent(cfg, record, tape, c, before)
    requires ExitWatchPrices(cfg, s).Some?
    requires var band := ExitWatchPrices(cfg, s).value;
             var start := CursorTime(tape, c);
             && !(start >= record.bar.start && BarInside(record.bar, band))
             && FirstBeyond(tape, Next(tape, c), WindowEnd(record.bar, start, before), band) == Some(hit)
    requires var fed := FeedOne(cfg, s, record, tape[hit].price, tape[hit].at);
             Held(fed.state) && Refines(cfg, fed.state, record, tape, After(hit), before)
    ensures Refines(cfg, s, record, tape, c, before)
  {
    hide FeedOne, ExitWatchPrices, FirstBeyond, TradeExits, Fully, Refines, StopLossPrice, BarInside, Consistent, Held,
        Limit, Next, LowerBound;
    var fed := FeedOne(cfg, s, record, tape[hit].price, tape[hit].at);
    ExitsPastHit(cfg, s, record, tape, c, before, hit);
    FullyPastHit(cfg, s, record, tape, c, before, hit);
    AfterOne(cfg, s, record, tape, before, hit);
    Glue(cfg, s, record, tape, c, before, hit, fed);
  }

  /** A hole before the bar without a hit: both forms move on to the bar. */
  lemma HoleCase(cfg: Config, s: State, record: BarRecord, tape: Tape, c: Cursor, before: int)
    requires cfg.Usable() && Held(s) && s.side != Flat && OnTape(tape, c) && Consistent(cfg, record, tape, c, before)
    requires CursorTime(tape, c) < record.bar.start < before && ExitWatchPrices(cfg, s).Some?
    requires FirstBeyond(tape, Next(tape, c), record.bar.start, ExitWatchPrices(cfg, s).value) == None
    requires Refines(cfg, s, record, tape, From(record.bar.start), before)
    ensures Refines(cfg, s, record, tape, c, before)
  {
    hide FeedOne, ExitWatchPrices, Sound, FirstBeyond, Feed, StopLossPrice;
    var i, m, j := Next(tape, c), Next(tape, From(record.bar.start)), Limit(tape, c, before);
    NextAdvances(tape, c, record.bar.start);
    NextAdvances(tape, From(record.bar.start), before);
    assert j == Limit(tape, From(record.bar.start), before);
    FeedQuiet(cfg, s, record, tape, i, m);
    FeedSplit(cfg, s, record, tape, i, m, j);
    var quiet := Feed(cfg, s, record, tape, i, m).state;
    FeedForgetsPrice(cfg, s, quiet, record, tape, m, j);
  }

  lemma {:induction false} SkipRefinesFeed(cfg: Config, s: State, record: BarRecord, tape: Tape, c: Cursor, before: int)
    requires cfg.Usable() && Held(s) && OnTape(tape, c) && Consistent(cfg, record, tape, c, before)
    ensures Refines(cfg, s, record, tape, c, before)
    decreases |tape| - Next(tape, c), if CursorTime(tape, c) < record.bar.start then 1 else 0
  {
    hide FeedOne, ExitWatchPrices, Sound, FirstBeyond;
    var i, j := Next(tape, c), Limit(tape, c, before);
    var start, bar := CursorTime(tape, c), record.bar;
    WatchedWhileOpen(cfg, s);
    if s.side == Flat {
      FeedQuiet(cfg, s, record, tape, i, j);
      return;
    }
    BandCoversStop(cfg, s);
    var band := ExitWatchPrices(cfg, s).value;
    var windowEnd := WindowEnd(bar, start, before);
    var hit := FirstBeyond(tape, i, windowEnd, band);
    if start >= bar.start && BarInside(bar, band) {
      InsideCase(cfg, s, record, tape, c, before);
    } else if hit.Some? {
      hide Feed, TradeExits, Refines;
      var fed := FeedOne(cfg, s, record, tape[hit.value].price, tape[hit.value].at);
      FeedOneShape(cfg, s, record, tape[hit.value].price, tape[hit.value].at);
      HitInWindow(tape, c, before, hit.value, windowEnd);
      SkipRefinesFeed(cfg, fed.state, record, tape, After(hit.value), before);
      HitCase(cfg, s, record, tape, c, before, hit.value);
    } else if windowEnd < before {
      hide Feed, TradeExits, Refines;
      NextAdvances(tape, c, bar.start);
      SkipRefinesFeed(cfg, s, record, tape, From(bar.start), before);
      HoleCase(cfg, s, record, tape, c, before);
    } else {
      LastCase(cfg, s, record, tape, c, before);
    }
  }

  /** The bar's own range rules every trade of the window out. */
  lemma InsideCase(cfg: Config, s: State, record: BarRecord, tape: Tape, c: Cursor, before: int)
    requires cfg.Usable() && Held(s) && s.side != Flat && OnTape(tape, c) && Consistent(cfg, record, tape, c, before)
    requires ExitWatchPrices(cfg, s).Some? && BarInside(record.bar, ExitWatchPrices(cfg, s).value)
    requires CursorTime(tape, c) >= record.bar.start
    ensures Refines(cfg, s, record, tape, c, before)
  {
    BandCoversStop(cfg, s);
    WindowAtOrAfter(tape, c);
    hide FeedOne, ExitWatchPrices, Sound, FirstBeyond;
    FeedQuiet(cfg, s, record, tape, Next(tape, c), Limit(tape, c, before));
  }

  /** No hit is left: the simple form feeds only quiet trades, and the fast form may assume a fill. */
  lemma LastCase(cfg: Config, s: State, record: BarRecord, tape: Tape, c: Cursor, before: int)
    requires cfg.Usable() && Held(s) && s.side != Flat && OnTape(tape, c) && Consistent(cfg, record, tape, c, before)
    requires ExitWatchPrices(cfg, s).Some? && StopLossPrice(cfg, s).Some?
    requires !(CursorTime(tape, c) >= record.bar.start && BarInside(record.bar, ExitWatchPrices(cfg, s).value))
    requires WindowEnd(record.bar, CursorTime(tape, c), before) == before
    requires FirstBeyond(tape, Next(tape, c), before, ExitWatchPrices(cfg, s).value) == None
    ensures Refines(cfg, s, record, tape, c, before)
  {
    hide FeedOne, ExitWatchPrices, Sound, FirstBeyond;
    var stop := StopLossPrice(cfg, s).value;
    FeedQuiet(cfg, s, record, tape, Next(tape, c), Limit(tape, c, before));
    if CursorTime(tape, c) >= record.bar.start && BarReachesStop(cfg, s, record.bar) {
      StopAlwaysFills(cfg, s, record, StopFillPrice(s.side, record.bar, stop), before);
    }
  }

  lemma WindowAtOrAfter(tape: Tape, c: Cursor)
    requires OnTape(tape, c)
    ensures forall k | Next(tape, c) <= k < |tape| :: tape[k].at >= CursorTime(tape, c)
  {
  }

  lemma AgreesUnlessUnrecorded(cfg: Config, s: State, record: BarRecord, tape: Tape, c: Cursor, before: int)
    requires cfg.Usable() && Held(s) && OnTape(tape, c) && Consistent(cfg, record, tape, c, before)
    ensures Agree(cfg, s, record, tape, c, before) <==> !Unrecorded(cfg, s, record, tape, c, before)
  {
    hide TradeExits, Feed, Sound;
    SkipRefinesFeed(cfg, s, record, tape, c, before);
  }

  /** A recorded trade at or past the stop closes the position. */
  lemma {:induction false} FeedReachesStop(cfg: Config, s: State, record: BarRecord, tape: Tape, i: nat, j: nat, k: nat)
    requires cfg.Usable() && Held(s) && i <= k < j <= |tape|
    requires s.side != Flat ==> AtOrPast(s.side, tape[k].price, StopLossPrice(cfg, s).value)
    ensures Feed(cfg, s, record, tape, i, j).state.side == Flat
    decreases j - i
  {
    hide FeedOne, Sound, ExitWatchPrices;
    if s.side == Flat {
      FeedQuiet(cfg, s, record, tape, i, j);
    } else {
      var first := FeedOne(cfg, s, record, tape[i].price, tape[i].at);
      FeedOneShape(cfg, s, record, tape[i].price, tape[i].at);
      if i == k {
        OpenHasStop(cfg, s);
        StopAlwaysFills(cfg, s, record, tape[i].price, tape[i].at);
        FeedQuiet(cfg, first.state, record, tape, i + 1, j);
      } else {
        FeedReachesStop(cfg, first.state, record, tape, i + 1, j, k);
      }
    }
  }

  lemma OpenHasStop(cfg: Config, s: State)
    requires Held(s) && s.side != Flat
    ensures StopLossPrice(cfg, s).Some?
  {
  }

  /** The promise of the replay: when a bar that reached the stop has a recorded trade that did so in
      the window, skipping finds the same exits as feeding every recorded trade. */
  lemma SkipAgreesWhenStopIsRecorded(cfg: Config, s: State, record: BarRecord, tape: Tape, c: Cursor, before: int)
    requires cfg.Usable() && Held(s) && OnTape(tape, c) && Consistent(cfg, record, tape, c, before)
    requires BarReachesStop(cfg, s, record.bar) ==>
               exists k :: Next(tape, c) <= k < Limit(tape, c, before)
                           && AtOrPast(s.side, tape[k].price, StopLossPrice(cfg, s).value)
    ensures Agree(cfg, s, record, tape, c, before)
  {
    hide TradeExits, Feed, Sound;
    if BarReachesStop(cfg, s, record.bar) {
      var k :| Next(tape, c) <= k < Limit(tape, c, before)
               && AtOrPast(s.side, tape[k].price, StopLossPrice(cfg, s).value);
      FeedReachesStop(cfg, s, record, tape, Next(tape, c), Limit(tape, c, before), k);
    }
    AgreesUnlessUnrecorded(cfg, s, record, tape, c, before);
  }
}
