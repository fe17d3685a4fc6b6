/** Which rule speaks, and what the fills of a whole run add up to. */
module EngineRules {
  import opened Domain
  import opened EngineModel
  import opened EngineProofs

  // ---- the exit rules, by price ----

  function NowOf(e: Event): int {
    match e
    case BarEvent(bar, _, _, _) => bar.end
    case TradeEvent(_, at, _, _) => at
    case TickEvent(now, _, _) => now
    case FillEvent(_, _, _, at) => at
    case ResetEvent => 0
  }

  function PriceSeen(s: State, e: Event): Option<real> {
    match e
    case BarEvent(bar, _, _, _) => Some(bar.close)
    case TradeEvent(price, _, _, _) => Some(price)
    case _ => s.lastPrice
  }

  predicate Busy(e: Event) {
    match e
    case BarEvent(_, _, activeOrder, _) => activeOrder
    case TradeEvent(_, _, activeOrder, _) => activeOrder
    case TickEvent(_, activeOrder, _) => activeOrder
    case _ => false
  }

  /** The loss has reached the stop. */
  predicate StoppedOut(cfg: Config, s: State, price: Option<real>) {
    && s.side != Flat && price.Some? && s.activeBasis.Some?
    && (if s.side == Long then price.value <= s.activeBasis.value - cfg.stopLoss
        else price.value >= s.activeBasis.value + cfg.stopLoss)
  }

  /** The price has come back from the followed peak by the allowed share. */
  predicate GaveBack(cfg: Config, s: State, price: Option<real>) {
    && s.side != Flat && price.Some? && s.activeBasis.Some?
    && var gain := if s.side == Long then price.value - s.activeBasis.value else s.activeBasis.value - price.value;
       var peak := FollowedPeak(cfg, StoredPeak(s), gain);
       peak.Some? && gain <= KeptPoints(peak.value, cfg.pullback)
  }

  /** The rule of a decision about an exit, and what it does to the signal. */
  ghost predicate Ruled(cfg: Config, s: State, now: int, price: Option<real>, busy: bool, d: Decision) {
    var eod, stop := s.side != Flat && cfg.InBand(now), StoppedOut(cfg, s, price);
    && (d.rule == EodFlatten <==> eod)
    && (d.rule == StopLoss <==> !eod && stop)
    && (d.rule == ProfitPullback <==> !eod && !stop && GaveBack(cfg, s, price))
    && (d.rule in {EodFlatten, StopLoss, ProfitPullback} ==> d.signal == if busy then None else Some(ExitAll))
    && (d.rule !in {EodFlatten, StopLoss, ProfitPullback} ==> d.signal != Some(ExitAll))
    && (s.side != Flat ==> d.signal in {None, Some(ExitAll)})
    && (d.rule == EnterLongRule <==> d.signal == Some(EnterLong))
    && (d.rule == EnterShortRule <==> d.signal == Some(EnterShort))
    && (d.passed <==> d.signal.Some?) && d.price == price && d.at == now && d.side == s.side
    && d.lots == |s.lots| - s.closedQuantity && d.stopBasis == s.activeBasis
  }

  lemma PullbackIsPrice(cfg: Config, s: State, ctx: Context)
    requires cfg.Usable() && Sound(s)
    ensures CheckPullback(cfg, TrackProfit(cfg, s), ctx).Some? <==> GaveBack(cfg, s, s.lastPrice)
  {
    hide Mean, Retracement, KeptPoints, ExitUnlessActive;
    if s.side != Flat && s.lastPrice.Some? {
      var gain := Points(s.side, s.lastPrice.value, Mean(s.lots));
      var peak := FollowedPeak(cfg, StoredPeak(s), gain);
      if peak.Some? {
        RetracementIsPrice(peak.value, gain, cfg.pullback);
      }
      assert TrackProfit(cfg, s).profitActivated ==> TrackProfit(cfg, s).maxFavorable == peak;
      assert peak.Some? <==> TrackProfit(cfg, s).profitActivated;
    }
  }

  lemma DecideRules(cfg: Config, s: State, ctx: Context)
    requires cfg.Usable() && Sound(s)
    ensures Ruled(cfg, s, ctx.now, s.lastPrice, ctx.activeOrder, Decide(cfg, s, ctx).decision)
  {
    hide GaveBack, CheckPullback, Mean, CheckEntry, TrackProfit;
    PullbackIsPrice(cfg, s, ctx);
    PullbackMakes(cfg, TrackProfit(cfg, s), ctx);
    EntryMakes(cfg, TrackProfit(cfg, s), ctx);
    TrackKeeps(cfg, s);
  }

  lemma TrackKeeps(cfg: Config, s: State)
    ensures var t := TrackProfit(cfg, s);
            && t.side == s.side && t.lots == s.lots && t.closedQuantity == s.closedQuantity
            && t.activeBasis == s.activeBasis && t.lastPrice == s.lastPrice
  {
    hide Mean, Points;
  }

  /** What every decision records of the state it was made in. */
  ghost predicate Records(s: State, ctx: Context, d: Decision) {
    && d.price == s.lastPrice && d.at == ctx.now && d.side == s.side && d.lots == |s.lots| - s.closedQuantity
    && d.stopBasis == s.activeBasis && (d.passed <==> d.signal.Some?)
  }

  lemma PullbackMakes(cfg: Config, s: State, ctx: Context)
    ensures var d := CheckPullback(cfg, s, ctx);
            d.Some? ==> d.value.rule == ProfitPullback && Records(s, ctx, d.value)
                        && d.value.signal == (if ctx.activeOrder then None else Some(ExitAll))
  {
    hide Mean, Retracement, BucketFor;
  }

  lemma EntryMakes(cfg: Config, s: State, ctx: Context)
    ensures var d := CheckEntry(cfg, s, ctx);
            && d.rule in {EnterLongRule, EnterShortRule, NoSignal} && Records(s, ctx, d)
            && d.signal != Some(ExitAll) && (s.side != Flat ==> d.signal == None)
            && (d.rule == EnterLongRule <==> d.signal == Some(EnterLong))
            && (d.rule == EnterShortRule <==> d.signal == Some(EnterShort))
  {
    hide BucketFor;
  }

  predicate SamePosition(s: State, t: State) {
    && t.side == s.side && t.lots == s.lots && t.closedQuantity == s.closedQuantity && t.activeBasis == s.activeBasis
    && t.profitActivated == s.profitActivated && t.maxFavorable == s.maxFavorable
  }

  lemma SameRules(cfg: Config, s: State, t: State, now: int, price: Option<real>, busy: bool, d: Decision)
    requires SamePosition(s, t) && Ruled(cfg, t, now, price, busy, d)
    ensures Ruled(cfg, s, now, price, busy, d)
  {
  }

  lemma SoundStays(s: State, t: State)
    requires SamePosition(s, t) && Sound(s) && (s.lastPrice.Some? ==> t.lastPrice.Some?)
    ensures Sound(t)
  {
  }

  /** Every evaluation, on its whole input: inside the band the flatten speaks, else a reached stop, else a given-back
      profit, each silenced by an order in flight; no other rule ever closes, and none adds to a position. */
  lemma RuleDecides(cfg: Config, s: State, e: Event)
    requires cfg.Usable() && Sound(s) && Evaluated(cfg, s, e).Some?
    ensures Ruled(cfg, s, NowOf(e), PriceSeen(s, e), Busy(e), Evaluated(cfg, s, e).value.decision)
  {
    hide Decide, Mean, MaOf, Choppy, Ruled, Sound;
    match e
    case BarEvent(bar, r, a, u) =>
      var input := Input(bar.end, Some(bar), BarClosed, r, a, u);
      var armed := ArmBreakout(cfg, Absorb(cfg, s, bar), input);
      SoundStays(s, armed);
      DecideRules(cfg, armed, ContextOf(cfg, armed, input));
      SameRules(cfg, s, armed, bar.end, Some(bar.close), a, Decide(cfg, armed, ContextOf(cfg, armed, input)).decision);
    case TradeEvent(price, at, a, u) =>
      var input := Input(at, None, TradePrice, true, a, u);
      var priced := s.(lastPrice := Some(price));
      SoundStays(s, priced);
      DecideRules(cfg, priced, ContextOf(cfg, priced, input));
      SameRules(cfg, s, priced, at, Some(price), a, Decide(cfg, priced, ContextOf(cfg, priced, input)).decision);
    case TickEvent(now, a, u) =>
      DecideRules(cfg, s, ContextOf(cfg, s, Input(now, None, ClockTick, true, a, u)));
  }

  /** The label of the newest bar seen when the event is judged, or its instant before any. */
  function NewestLabel(s: State, e: Event): int {
    if e.BarEvent? then e.bar.start else if s.lastBarStart.Some? then s.lastBarStart.value else NowOf(e)
  }

  /** No signal, no key; otherwise the contract, the rule, and what makes a second signal the same one. */
  predicate Keyed(s: State, d: Decision, now: int, start: int) {
    if d.signal.None? then d.key.None?
    else d.key == Some(IntentKey(s.contract, d.rule, if d.rule == EodFlatten then OnDate(DateOf(now))
        else AtInstant(start)))
  }

  /** The label a context's signals are filed under. */
  predicate Labels(s: State, ctx: Context, start: int) {
    && start == (if s.lastBarStart.Some? then s.lastBarStart.value else ctx.now)
    && (ctx.bar.Some? ==> start == ctx.bar.value.start)
  }

  lemma MadeIsKeyed(cfg: Config, s: State, ctx: Context, rule: Rule, signal: Option<SignalKind>, start: int)
    requires Labels(s, ctx, start) && (rule in {EnterLongRule, EnterShortRule} && signal.Some? ==> ctx.bar.Some?)
    requires rule == NoSignal ==> signal == None
    ensures Keyed(s, Make(cfg, s, ctx, rule, signal), ctx.now, start)
  {
  }

  lemma EntryIsKeyed(cfg: Config, s: State, ctx: Context, start: int)
    requires Labels(s, ctx, start)
    ensures Keyed(s, CheckEntry(cfg, s, ctx), ctx.now, start)
  {
    hide Make, Keyed, Labels;
    MadeIsKeyed(cfg, s, ctx, NoSignal, None, start);
    if ctx.bar.Some? {
      MadeIsKeyed(cfg, s, ctx, EnterLongRule, Some(EnterLong), start);
      MadeIsKeyed(cfg, s, ctx, EnterShortRule, Some(EnterShort), start);
    }
  }

  lemma DecisionIsKeyed(cfg: Config, s: State, ctx: Context, start: int)
    requires Labels(s, ctx, start)
    ensures Keyed(s, Decide(cfg, s, ctx).decision, ctx.now, start)
  {
    hide Make, Keyed, Labels, CheckEntry, Mean, Retracement, Points, TrackProfit;
    var tracked, signal := TrackProfit(cfg, s), if ctx.activeOrder then None else Some(ExitAll);
    TrackFiles(cfg, s, ctx, start);
    MadeIsKeyed(cfg, s, ctx, EodFlatten, signal, start);
    MadeIsKeyed(cfg, s, ctx, StopLoss, signal, start);
    MadeIsKeyed(cfg, tracked, ctx, ProfitPullback, signal, start);
    EntryIsKeyed(cfg, tracked, ctx, start);
    KeyedAlike(s, tracked, Decide(cfg, s, ctx).decision, ctx.now, start);
  }

  lemma KeyedAlike(s: State, t: State, d: Decision, now: int, start: int)
    requires t.contract == s.contract
    ensures Keyed(s, d, now, start) <==> Keyed(t, d, now, start)
  {
  }

  lemma TrackFiles(cfg: Config, s: State, ctx: Context, start: int)
    requires Labels(s, ctx, start)
    ensures TrackProfit(cfg, s).contract == s.contract && Labels(TrackProfit(cfg, s), ctx, start)
  {
    hide Mean, Points;
  }

  /** A signal's key names the contract, the rule, and when it is the same signal again: on the same calendar date for
      the flatten, under the same newest bar for everything else. */
  lemma KeyDecides(cfg: Config, s: State, e: Event)
    requires cfg.Usable() && Evaluated(cfg, s, e).Some?
    ensures Keyed(s, Evaluated(cfg, s, e).value.decision, NowOf(e), NewestLabel(s, e))
  {
    hide Decide, MaOf, Choppy, Keyed;
    match e
    case BarEvent(bar, r, a, u) =>
      var input := Input(bar.end, Some(bar), BarClosed, r, a, u);
      var armed := ArmBreakout(cfg, Absorb(cfg, s, bar), input);
      DecisionIsKeyed(cfg, armed, ContextOf(cfg, armed, input), bar.start);
      KeyedAlike(s, armed, Decide(cfg, armed, ContextOf(cfg, armed, input)).decision, bar.end, bar.start);
    case TradeEvent(price, at, a, u) =>
      var input, priced := Input(at, None, TradePrice, true, a, u), s.(lastPrice := Some(price));
      DecisionIsKeyed(cfg, priced, ContextOf(cfg, priced, input), NewestLabel(s, e));
      KeyedAlike(s, priced, Decide(cfg, priced, ContextOf(cfg, priced, input)).decision, at, NewestLabel(s, e));
    case TickEvent(now, a, u) =>
      DecisionIsKeyed(cfg, s, ContextOf(cfg, s, Input(now, None, ClockTick, true, a, u)), NewestLabel(s, e));
  }

  /** A bar of another instrument or contract is refused: it is not judged and changes nothing. */
  lemma ForeignBarsAreRefused(cfg: Config, s: State, e: Event)
    requires cfg.Usable() && e.BarEvent?
    ensures Evaluated(cfg, s, e).None? <==> e.bar.instrument != s.instrument || e.bar.contract != s.contract
    ensures Evaluated(cfg, s, e).None? ==> Step(cfg, s, e) == s
  {
    hide OnBar;
  }

  // ---- fills over a whole run ----

  predicate Opposes(held: PositionSide, side: Side) {
    (held == Long && side == Sell) || (held == Short && side == Buy)
  }

  /** The signed lots still held. */
  function Held(s: State): int {
    var open := |s.lots| - s.closedQuantity;
    match s.side
    case Flat => 0
    case Long => open
    case Short => -open
  }

  /** Only a fill of no lots, or one that would open beyond the cap, does not count. */
  predicate Counts(s: State, e: Event) {
    e.FillEvent? && e.quantity > 0 && (Opposes(s.side, e.side) || |s.lots| + e.quantity <= MAX_LOTS)
  }

  /** The fills of a run that counted, signed. */
  function FillsOf(cfg: Config, s: State, events: seq<Event>): int
    requires cfg.Usable()
  {
    if events == [] then 0
    else
      var n := |events| - 1;
      FillsOf(cfg, s, events[..n])
      + (if Counts(Run(cfg, s, events[..n]), events[n]) then Signed(events[n].side, events[n].quantity) else 0)
  }

  lemma EvaluationHolds(cfg: Config, s: State, e: Event)
    requires cfg.Usable() && !e.FillEvent?
    ensures var t := Step(cfg, s, e);
            && t.side == s.side && t.lots == s.lots && t.closedQuantity == s.closedQuantity
            && t.activeBasis == s.activeBasis
  {
    hide MaOf, Choppy, CheckEod, CheckStopLoss, CheckPullback, CheckEntry, TrackProfit;
    match e
    case BarEvent(bar, r, a, u) =>
      TrackKeeps(cfg, ArmBreakout(cfg, Absorb(cfg, s, bar), Input(bar.end, Some(bar), BarClosed, r, a, u)));
    case TradeEvent(price, _, _, _) => TrackKeeps(cfg, s.(lastPrice := Some(price)));
    case _ => TrackKeeps(cfg, s);
  }

  lemma FillHolds(s: State, e: Event)
    requires Sound(s) && e.FillEvent?
    ensures var t := OnFill(s, e.side, e.price, e.quantity, e.at);
            Held(t) == Held(s) + (if Counts(s, e) then Signed(e.side, e.quantity) else 0)
  {
    hide Mean;
  }

  /** Conservation: in every run the signed lots held are the sum of the fills that counted, partial closes and
      closes beyond the held lots included. */
  lemma {:induction false} PositionIsFills(cfg: Config, instrument: Instrument, contract: string, events: seq<Event>)
    requires cfg.Usable()
    ensures var start := Fresh(instrument, contract); Held(Run(cfg, start, events)) == FillsOf(cfg, start, events)
  {
    if events != [] {
      var n := |events| - 1;
      var start := Fresh(instrument, contract);
      PositionIsFills(cfg, instrument, contract, events[..n]);
      RunKeepsSound(cfg, start, events[..n]);
      hide Sound, OnFill, Evaluated;
      if events[n].FillEvent? {
        FillHolds(Run(cfg, start, events[..n]), events[n]);
      } else {
        EvaluationHolds(cfg, Run(cfg, start, events[..n]), events[n]);
      }
    }
  }

  /** The lots opened since the position was last flat, at their own prices. */
  function Openings(cfg: Config, s: State, events: seq<Event>): seq<LotFill>
    requires cfg.Usable()
  {
    if events == [] then []
    else
      var n := |events| - 1;
      var before, e := Run(cfg, s, events[..n]), events[n];
      if !Counts(before, e) then Openings(cfg, s, events[..n])
      else if !Opposes(before.side, e.side) then
        Openings(cfg, s, events[..n]) + seq(e.quantity, _ => LotFill(e.price, e.at))
      else if Held(before) + Signed(e.side, e.quantity) == 0 then []
      else Openings(cfg, s, events[..n])
  }

  /** What the lots cost together. */
  function Cost(lots: seq<LotFill>): real {
    if lots == [] then 0.0 else lots[0].price + Cost(lots[1..])
  }

  lemma {:induction false} CostIsSum(lots: seq<LotFill>)
    ensures Cost(lots) == SumPrices(lots)
  {
    if lots != [] {
      var n := |lots| - 1;
      CostIsSum(lots[..n]);
      CostAdds(lots[..n], lots[n]);
      assert lots[..n] + [lots[n]] == lots;
    }
  }

  lemma {:induction false} CostAdds(lots: seq<LotFill>, l: LotFill)
    ensures Cost(lots + [l]) == Cost(lots) + l.price
  {
    if lots == [] {
      assert ([l])[1..] == [];
    } else {
      assert (lots + [l])[1..] == lots[1..] + [l];
      CostAdds(lots[1..], l);
    }
  }

  lemma MeanIsAverage(lots: seq<LotFill>)
    requires lots != []
    ensures Mean(lots) * |lots| as real == Cost(lots)
  {
    CostIsSum(lots);
    var n := |lots| as real;
    assert SumPrices(lots) / n * n == SumPrices(lots);
  }

  lemma FillOpens(s: State, e: Event)
    requires Sound(s) && e.FillEvent?
    ensures var t := OnFill(s, e.side, e.price, e.quantity, e.at);
            t.lots == if !Counts(s, e) then s.lots
                      else if !Opposes(s.side, e.side) then s.lots + seq(e.quantity, _ => LotFill(e.price, e.at))
                      else if Held(s) + Signed(e.side, e.quantity) == 0 then [] else s.lots
  {
    hide Mean;
  }

  lemma {:induction false} LotsAreOpenings(cfg: Config, s: State, events: seq<Event>)
    requires cfg.Usable() && Sound(s) && s.lots == []
    ensures Run(cfg, s, events).lots == Openings(cfg, s, events)
  {
    if events != [] {
      var n := |events| - 1;
      LotsAreOpenings(cfg, s, events[..n]);
      RunKeepsSound(cfg, s, events[..n]);
      hide OnFill, Evaluated, Sound, Held, Counts;
      if events[n].FillEvent? {
        FillOpens(Run(cfg, s, events[..n]), events[n]);
      } else {
        EvaluationHolds(cfg, Run(cfg, s, events[..n]), events[n]);
        NotAFill(Run(cfg, s, events[..n]), events[n]);
      }
    }
  }

  predicate IsAverage(basis: Option<real>, lots: seq<LotFill>) {
    && (basis.Some? <==> lots != [])
    && (lots != [] ==> basis.value * |lots| as real == Cost(lots))
  }

  /** In every run from a flat engine the lots kept are those opened since the position was last flat, and the stop
      basis is their average price. */
  lemma BasisIsAverage(cfg: Config, start: State, events: seq<Event>)
    requires cfg.Usable() && Sound(start) && start.side == Flat
    ensures var s, lots := Run(cfg, start, events), Openings(cfg, start, events);
            s.lots == lots && IsAverage(s.activeBasis, lots)
  {
    assert start.lots == [];
    hide Run, Openings, IsAverage, Sound;
    RunKeepsSound(cfg, start, events);
    LotsAreOpenings(cfg, start, events);
    BasisOf(Run(cfg, start, events));
  }

  lemma BasisOf(s: State)
    requires Sound(s)
    ensures IsAverage(s.activeBasis, s.lots)
  {
    hide Mean, Cost;
    if s.lots != [] {
      MeanIsAverage(s.lots);
    }
  }

  lemma NotAFill(s: State, e: Event)
    requires !e.FillEvent?
    ensures !Counts(s, e)
  {
  }

  /** Averaging in: tracking goes on exactly when the peak price is still a gain over the new basis, at that price;
      and an opening fill ends the wait for a breakout. */
  lemma AveragingRebases(s: State, side: Side, price: real, quantity: int, at: int)
    requires Sound(s) && Counts(s, FillEvent(side, price, quantity, at)) && !Opposes(s.side, side)
    ensures var t := OnFill(s, side, price, quantity, at);
            && t.side != Flat && t.activeBasis.Some? && !t.waiting
            && (t.profitActivated <==>
                  s.profitActivated && (if s.side == Long then PeakPrice(s) > t.activeBasis.value
                                        else PeakPrice(s) < t.activeBasis.value))
            && (t.profitActivated ==> t.lots != [] && t.maxFavorable.Some? && PeakPrice(t) == PeakPrice(s))
  {
    hide Mean;
    assert |s.lots + seq(quantity, _ => LotFill(price, at))| == |s.lots| + quantity;
  }
}
