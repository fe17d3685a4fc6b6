/** What holds of the engine in every run of bars, prices, ticks, fills and history resets. */
module EngineProofs {
  import opened Domain
  import opened MovingAverage
  import opened EngineModel

  datatype Event =
    | BarEvent(bar: Bar, reliable: bool, activeOrder: bool, uncertain: bool)
    | TradeEvent(price: real, at: int, activeOrder: bool, uncertain: bool)
    | TickEvent(now: int, activeOrder: bool, uncertain: bool)
    | FillEvent(side: Side, price: real, quantity: int, at: int)
    | ResetEvent

  /** The decision an event leads to, if it is one the engine evaluates. */
  function Evaluated(cfg: Config, s: State, e: Event): Option<Outcome>
    requires cfg.Usable()
  {
    match e
    case BarEvent(bar, r, a, u) => if Tracks(s, bar) then Some(OnBar(cfg, s, bar, r, a, u)) else None
    case TradeEvent(price, at, a, u) => Some(OnTrade(cfg, s, price, at, a, u))
    case TickEvent(now, a, u) => Some(OnTick(cfg, s, now, a, u))
    case _ => None
  }

  function Step(cfg: Config, s: State, e: Event): State
    requires cfg.Usable()
  {
    match e
    case FillEvent(side, price, quantity, at) => OnFill(s, side, price, quantity, at)
    case ResetEvent => ResetHistory(s)
    case _ => if Evaluated(cfg, s, e).Some? then Evaluated(cfg, s, e).value.state else s
  }

  function Run(cfg: Config, s: State, events: seq<Event>): State
    requires cfg.Usable()
  {
    if events == [] then s else Step(cfg, Run(cfg, s, events[..|events| - 1]), events[|events| - 1])
  }

  // ---- the position invariant ----

  /** Flat means nothing is held or tracked; otherwise the stop basis is the mean of the lots,
      and profit is tracked exactly when a positive peak is stored. */
  ghost predicate Sound(s: State) {
    && (s.side == Flat <==> s.lots == [])
    && |s.lots| <= MAX_LOTS
    && s.closedQuantity >= 0
    && (s.side == Flat ==> s.closedQuantity == 0 && s.activeBasis == None && !s.profitActivated)
    && (s.side != Flat ==> s.activeBasis == Some(Mean(s.lots)))
    && (s.profitActivated <==> s.maxFavorable.Some?)
    && (s.profitActivated ==> s.maxFavorable.value > 0.0 && s.lastPrice.Some?)
  }

  lemma DecideKeepsSound(cfg: Config, s: State, ctx: Context)
    requires cfg.Usable() && Sound(s)
    ensures Sound(Decide(cfg, s, ctx).state)
  {
    assert Decide(cfg, s, ctx).state in {s, TrackProfit(cfg, s)};
  }

  lemma StepKeepsSound(cfg: Config, s: State, e: Event)
    requires cfg.Usable() && Sound(s)
    ensures Sound(Step(cfg, s, e))
  {
    match e
    case BarEvent(bar, r, a, u) =>
      if Tracks(s, bar) {
        var input := Input(bar.end, Some(bar), BarClosed, r, a, u);
        var armed := ArmBreakout(cfg, Absorb(cfg, s, bar), input);
        DecideKeepsSound(cfg, armed, ContextOf(cfg, armed, input));
      }
      hide Decide, ContextOf, Mean;
    case TradeEvent(price, at, a, u) =>
      var input := Input(at, None, TradePrice, true, a, u);
      var priced := s.(lastPrice := Some(price));
      assert ArmBreakout(cfg, priced, input) == priced;
      DecideKeepsSound(cfg, priced, ContextOf(cfg, priced, input));
      hide Decide, ContextOf, Mean;
    case TickEvent(now, a, u) =>
      DecideKeepsSound(cfg, s, ContextOf(cfg, s, Input(now, None, ClockTick, true, a, u)));
      hide Decide, ContextOf, Mean;
    case FillEvent(side, price, quantity, at) =>
      if quantity > 0 && OpeningSide(s, side) && |s.lots| + quantity <= MAX_LOTS {
        assert |s.lots + seq(quantity, _ => LotFill(price, at))| == |s.lots| + quantity;
      }
    case ResetEvent =>
  }

  /** Every reachable engine is sound, so the retracement is never divided by zero. */
  lemma {:induction false} RunKeepsSound(cfg: Config, s: State, events: seq<Event>)
    requires cfg.Usable() && Sound(s)
    ensures Sound(Run(cfg, s, events))
  {
    if events != [] {
      RunKeepsSound(cfg, s, events[..|events| - 1]);
      StepKeepsSound(cfg, Run(cfg, s, events[..|events| - 1]), events[|events| - 1]);
    }
  }

  // ---- the tracked peak ----

  /** The prices observed since tracking began: those of evaluations that got past the flatten and
      the stop. A fill that ends tracking forgets them. */
  function Observations(cfg: Config, s: State, events: seq<Event>): seq<real>
    requires cfg.Usable()
  {
    if events == [] then [] else
    var before := Run(cfg, s, events[..|events| - 1]);
    Observe(cfg, before, events[|events| - 1], Observations(cfg, s, events[..|events| - 1]))
  }

  function Observe(cfg: Config, before: State, e: Event, seen: seq<real>): seq<real>
    requires cfg.Usable()
  {
    var outcome := Evaluated(cfg, before, e);
    if !Step(cfg, before, e).profitActivated then []
    else if outcome.Some? && outcome.value.decision.rule !in {EodFlatten, StopLoss}
            && outcome.value.state.lastPrice.Some?
    then (if before.profitActivated then seen else []) + [outcome.value.state.lastPrice.value]
    else seen
  }

  /** `p` is the most favourable of the observed prices. */
  ghost predicate IsPeak(side: PositionSide, seen: seq<real>, p: real) {
    p in seen && forall q | q in seen :: if side == Long then q <= p else q >= p
  }

  function PeakPrice(s: State): real
    requires s.lots != [] && s.maxFavorable.Some?
  {
    PriceAt(s.side, Mean(s.lots), s.maxFavorable.value)
  }

  ghost predicate PeakKept(s: State, seen: seq<real>) {
    && Sound(s)
    && (s.profitActivated ==> IsPeak(s.side, seen, PeakPrice(s)))
  }

  lemma DecideKeepsPeak(cfg: Config, s: State, ctx: Context, seen: seq<real>)
    requires cfg.Usable() && PeakKept(s, seen)
    ensures var o := Decide(cfg, s, ctx);
            var looked := o.decision.rule !in {EodFlatten, StopLoss} && s.lastPrice.Some?;
            o.state.lastPrice == s.lastPrice
            && (o.state.profitActivated ==>
                  PeakKept(o.state, if looked then (if s.profitActivated then seen else []) + [s.lastPrice.value]
                      else seen))
  {
    DecideKeepsSound(cfg, s, ctx);
    var o := Decide(cfg, s, ctx);
    if o.decision.rule in {EodFlatten, StopLoss} {
      assert o.state == s;
    } else if s.lastPrice.Some? {
      assert o.state == TrackProfit(cfg, s);
      if o.state.profitActivated {
        var price := s.lastPrice.value;
        var now := (if s.profitActivated then seen else []) + [price];
        assert price in now;
        if s.profitActivated && Points(s.side, price, Mean(s.lots)) <= s.maxFavorable.value {
          assert PeakPrice(o.state) == PeakPrice(s) && PeakPrice(s) in now;
        } else {
          assert PeakPrice(o.state) == price;
        }
      }
    }
  }

  /** An opening fill that keeps tracking active keeps the absolute peak price. */
  lemma FillKeepsPeakPrice(s: State, side: Side, price: real, quantity: int, at: int)
    requires Sound(s) && s.profitActivated
    ensures var after := OnFill(s, side, price, quantity, at);
            after.profitActivated ==> after.side == s.side && after.lots != [] && PeakPrice(after) == PeakPrice(s)
  {
  }

  lemma StepKeepsPeak(cfg: Config, s: State, e: Event, seen: seq<real>)
    requires cfg.Usable() && PeakKept(s, seen)
    ensures PeakKept(Step(cfg, s, e), Observe(cfg, s, e, seen))
  {
    StepKeepsSound(cfg, s, e);
    match e
    case BarEvent(bar, r, a, u) =>
      if Tracks(s, bar) {
        var input := Input(bar.end, Some(bar), BarClosed, r, a, u);
        var armed := ArmBreakout(cfg, Absorb(cfg, s, bar), input);
        DecideKeepsPeak(cfg, armed, ContextOf(cfg, armed, input), seen);
      }
      hide Decide, ContextOf, Mean, IsPeak, Sound;
    case TradeEvent(price, at, a, u) =>
      var input := Input(at, None, TradePrice, true, a, u);
      var priced := s.(lastPrice := Some(price));
      DecideKeepsPeak(cfg, priced, ContextOf(cfg, priced, input), seen);
      hide Decide, ContextOf, Mean, IsPeak, Sound;
    case TickEvent(now, a, u) =>
      DecideKeepsPeak(cfg, s, ContextOf(cfg, s, Input(now, None, ClockTick, true, a, u)), seen);
      hide Decide, ContextOf, Mean, IsPeak, Sound;
    case FillEvent(side, price, quantity, at) =>
      if s.profitActivated {
        FillKeepsPeakPrice(s, side, price, quantity, at);
      }
    case ResetEvent =>
  }

  /** In every run the stored peak is the most favourable price observed since tracking began. */
  lemma {:induction false} PeakIsRunningMaximum(cfg: Config, instrument: Instrument, contract: string,
                                                events: seq<Event>)
    requires cfg.Usable()
    ensures PeakKept(Run(cfg, Fresh(instrument, contract), events),
        Observations(cfg, Fresh(instrument, contract), events))
  {
    if events != [] {
      var shorter := events[..|events| - 1];
      var start := Fresh(instrument, contract);
      PeakIsRunningMaximum(cfg, instrument, contract, shorter);
      StepKeepsPeak(cfg, Run(cfg, start, shorter), events[|events| - 1], Observations(cfg, start, shorter));
    }
  }

  // ---- the watch band ----

  /** The edge of the band against the held direction. */
  function Adverse(cfg: Config, s: State): real
    requires ExitWatchPrices(cfg, s).Some?
  {
    var band := ExitWatchPrices(cfg, s).value;
    if s.side == Long then band.low else band.high
  }

  /** The edge of the band in the held direction. */
  function Favourable(cfg: Config, s: State): real
    requires ExitWatchPrices(cfg, s).Some?
  {
    var band := ExitWatchPrices(cfg, s).value;
    if s.side == Long then band.high else band.low
  }

  predicate AtOrBeyond(side: PositionSide, price: real, edge: real) {
    if side == Long then price >= edge else price <= edge
  }

  predicate AtOrPast(side: PositionSide, price: real, edge: real) {
    if side == Long then price <= edge else price >= edge
  }

  lemma WatchedWhileOpen(cfg: Config, s: State)
    requires Sound(s)
    ensures ExitWatchPrices(cfg, s).Some? <==> s.side != Flat
  {
  }

  /** Retracing by the ratio is a price comparison. */
  lemma RetracementIsPrice(peak: real, points: real, ratio: real)
    requires peak > 0.0
    ensures Retracement(peak, points) < ratio <==> points > KeptPoints(peak, ratio)
  {
    var r := Retracement(peak, points);
    assert r * peak == peak - points;
    if r < ratio {
      assert r * peak < ratio * peak;
    }
    if points > KeptPoints(peak, ratio) {
      assert (ratio - r) * peak > 0.0;
    }
  }

  /** Outside the flatten band a trade strictly inside the watch band gives no signal and changes
      nothing but the last price. */
  lemma InsideBandIsQuiet(cfg: Config, s: State, price: real, at: int, activeOrder: bool, uncertain: bool)
    requires cfg.Usable() && Sound(s) && s.side != Flat && !cfg.InBand(at)
    requires var band := ExitWatchPrices(cfg, s).value; band.low < price < band.high
    ensures var o := OnTrade(cfg, s, price, at, activeOrder, uncertain);
            o.state == s.(lastPrice := Some(price)) && o.decision.signal == None && !o.decision.passed
  {
    InsideInPoints(cfg, s, price);
    hide ExitWatchPrices;
    var points := Points(s.side, price, Mean(s.lots));
    if s.profitActivated {
      RetracementIsPrice(s.maxFavorable.value, points, cfg.pullback);
    }
    hide Retracement, KeptPoints;
    var priced := s.(lastPrice := Some(price));
    assert TrackProfit(cfg, priced) == priced;
  }

  lemma InsideInPoints(cfg: Config, s: State, price: real)
    requires Sound(s) && s.side != Flat
    requires var band := ExitWatchPrices(cfg, s).value; band.low < price < band.high
    ensures var points := Points(s.side, price, Mean(s.lots));
            && points > -cfg.stopLoss
            && (s.profitActivated ==> KeptPoints(s.maxFavorable.value, cfg.pullback) < points < s.maxFavorable.value)
            && (!s.profitActivated ==> points < cfg.activation)
  {
    hide Mean, KeptPoints;
  }

  /** The band is exact on its adverse side: outside the flatten band, with no order in flight, a
      trade exits if and only if it is at or past that edge. */
  lemma ExitsExactlyPastAdverseEdge(cfg: Config, s: State, price: real, at: int, uncertain: bool)
    requires cfg.Usable() && Sound(s) && s.side != Flat && !cfg.InBand(at)
    ensures AtOrPast(s.side, price, Adverse(cfg, s)) ==>
              OnTrade(cfg, s, price, at, false, uncertain).decision.signal == Some(ExitAll)
    ensures cfg.pullback > 0.0 ==>
              (AtOrPast(s.side, price, Adverse(cfg, s)) <==>
               OnTrade(cfg, s, price, at, false, uncertain).decision.signal == Some(ExitAll))
  {
    TradeExitsWhen(cfg, s, price, at, uncertain);
    AdverseInPoints(cfg, s, price);
    EdgeIsRetracement(cfg, s, Points(s.side, price, Mean(s.lots)));
    hide OnTrade, AtOrPast, Adverse, Points, Mean, FollowedPeak;
  }

  /** In points: falling to the edge is falling back from the peak by the configured share. */
  lemma EdgeIsRetracement(cfg: Config, s: State, points: real)
    requires cfg.Usable() && Sound(s)
    ensures var followed := FollowedPeak(cfg, StoredPeak(s), points);
            var fell := followed.Some? && followed.value > 0.0 && Retracement(followed.value, points) >= cfg.pullback;
            var edge := s.profitActivated && points <= KeptPoints(s.maxFavorable.value, cfg.pullback);
            (edge ==> fell) && (cfg.pullback > 0.0 ==> (edge <==> fell))
  {
    hide Mean;
    if s.profitActivated {
      var peak := s.maxFavorable.value;
      RetracementIsPrice(peak, points, cfg.pullback);
      RatioOf(peak, cfg.pullback);
    }
    if points > 0.0 {
      assert Retracement(points, points) == 0.0;
    }
    hide Retracement, KeptPoints;
  }

  lemma AdverseInPoints(cfg: Config, s: State, price: real)
    requires Sound(s) && s.side != Flat
    ensures var points := Points(s.side, price, Mean(s.lots));
            AtOrPast(s.side, price, Adverse(cfg, s)) <==>
              points <= -cfg.stopLoss || (s.profitActivated && points <= KeptPoints(s.maxFavorable.value, cfg.pullback))
  {
    hide Mean, KeptPoints;
  }

  /** With no order in flight, a trade exits on the stop or on the retracement from the followed peak. */
  lemma TradeExitsWhen(cfg: Config, s: State, price: real, at: int, uncertain: bool)
    requires cfg.Usable() && Sound(s) && s.side != Flat && !cfg.InBand(at)
    ensures var points := Points(s.side, price, Mean(s.lots));
            var peak := FollowedPeak(cfg, StoredPeak(s), points);
            OnTrade(cfg, s, price, at, false, uncertain).decision.signal == Some(ExitAll) <==>
              points <= -cfg.stopLoss || (peak.Some? && peak.value > 0.0
                  && Retracement(peak.value, points) >= cfg.pullback)
  {
    hide Mean, Retracement, MaOf, Choppy, BucketFor;
  }

  function StoredPeak(s: State): Option<real> {
    if s.profitActivated then s.maxFavorable else None
  }

  /** The peak, in points, once a trade is looked at. */
  function FollowedPeak(cfg: Config, peak: Option<real>, points: real): Option<real> {
    if peak.Some? then Some(if points > peak.value then points else peak.value)
    else if points >= cfg.activation then Some(points) else None
  }

  /** The exit rule as one price comparison, for every configuration: a trade exits if and only if it is at or
      past the adverse edge that belongs to the peak followed up to and including it. */
  lemma ExitsAtFollowedEdge(cfg: Config, s: State, price: real, at: int, uncertain: bool)
    requires cfg.Usable() && Sound(s) && s.side != Flat && !cfg.InBand(at)
    ensures OnTrade(cfg, s, price, at, false, uncertain).decision.signal == Some(ExitAll) <==>
              AtOrPast(s.side, price, FollowedEdge(cfg, s,
                  FollowedPeak(cfg, StoredPeak(s), Points(s.side, price, Mean(s.lots)))))
  {
    TradeExitsWhen(cfg, s, price, at, uncertain);
    var points := Points(s.side, price, Mean(s.lots));
    var peak := FollowedPeak(cfg, StoredPeak(s), points);
    if peak.Some? {
      RetracementIsPrice(peak.value, points, cfg.pullback);
    }
    hide OnTrade, Mean, Retracement, KeptPoints;
  }

  /** The adverse edge of a position for a given peak. */
  function FollowedEdge(cfg: Config, s: State, peak: Option<real>): real
    requires s.lots != []
  {
    var stop := if s.side == Long then Mean(s.lots) - cfg.stopLoss else Mean(s.lots) + cfg.stopLoss;
    AdverseEdge(cfg, s.side, Mean(s.lots), stop, peak)
  }

  lemma RatioOf(peak: real, ratio: real)
    requires peak > 0.0
    ensures ratio > 0.0 <==> KeptPoints(peak, ratio) < peak
  {
  }

  /** Short of the adverse edge, the stored peak moves exactly when the trade reaches the favourable edge, and
      passes it once a peak is stored. */
  lemma TrackingMovesOnlyPastFavourableEdge(cfg: Config, s: State, price: real, at: int, activeOrder: bool,
                                            uncertain: bool)
    requires cfg.Usable() && Sound(s) && s.side != Flat && !cfg.InBand(at)
    requires !AtOrPast(s.side, price, Adverse(cfg, s))
    ensures var o := OnTrade(cfg, s, price, at, activeOrder, uncertain);
            o.state.maxFavorable != s.maxFavorable <==>
              AtOrBeyond(s.side, price, Favourable(cfg, s)) && (s.profitActivated ==> price != Favourable(cfg, s))
  {
    AdverseInPoints(cfg, s, price);
    FavourableInPoints(cfg, s, price);
    TradeTracks(cfg, s, price, at, activeOrder, uncertain);
    hide OnTrade, Points, Mean, Favourable, Adverse;
  }

  lemma FavourableInPoints(cfg: Config, s: State, price: real)
    requires Sound(s) && s.side != Flat
    ensures var points, target := Points(s.side, price, Mean(s.lots)), if s.profitActivated then s.maxFavorable.value
        else cfg.activation;
            && (AtOrBeyond(s.side, price, Favourable(cfg, s)) <==> points >= target)
            && (price == Favourable(cfg, s) <==> points == target)
  {
    hide Mean, KeptPoints;
  }

  /** A trade that does not stop the position out is followed by the peak. */
  lemma TradeTracks(cfg: Config, s: State, price: real, at: int, activeOrder: bool, uncertain: bool)
    requires cfg.Usable() && Sound(s) && s.side != Flat && !cfg.InBand(at)
    ensures var points := Points(s.side, price, Mean(s.lots));
            points > -cfg.stopLoss ==>
              OnTrade(cfg, s, price, at, activeOrder, uncertain).state.maxFavorable
                  == FollowedPeak(cfg, StoredPeak(s), points)
  {
    hide Mean, Retracement, MaOf, Choppy, BucketFor;
  }

  // ---- entries ----

  /** The bars closed since the history was last reset. */
  function History(cfg: Config, s: State, events: seq<Event>): seq<Bar>
    requires cfg.Usable()
  {
    if events == [] then [] else
    var before, e := History(cfg, s, events[..|events| - 1]), events[|events| - 1];
    match e
    case BarEvent(bar, _, _, _) => if Tracks(s, bar) then before + [bar] else before
    case ResetEvent => []
    case _ => before
  }

  function Closes(bars: seq<Bar>): (r: seq<real>)
    ensures |r| == |bars|
  {
    seq(|bars|, i requires 0 <= i < |bars| => bars[i].close)
  }

  /** How many of the last bars share the colour of the last one. */
  function Trailing(bars: seq<Bar>, color: CandleColor): nat {
    if bars == [] || bars[|bars| - 1].Color() != color then 0 else 1 + Trailing(bars[..|bars| - 1], color)
  }

  ghost predicate Remembers(cfg: Config, s: State, bars: seq<Bar>) {
    && s.closes == Tail(Closes(bars), cfg.MaxHistory())
    && s.streak == if bars == [] || bars[|bars| - 1].Color() == Doji then NO_STREAK
                   else Streak(Some(bars[|bars| - 1].Color()), Trailing(bars, bars[|bars| - 1].Color()))
  }

  lemma AbsorbRemembers(cfg: Config, s: State, bars: seq<Bar>, bar: Bar)
    requires Remembers(cfg, s, bars)
    ensures Remembers(cfg, Absorb(cfg, s, bar), bars + [bar])
  {
    var longer := bars + [bar];
    assert longer[..|longer| - 1] == bars;
    assert Closes(longer) == Closes(bars) + [bar.close];
    assert Absorb(cfg, s, bar).closes == Tail(Closes(longer), cfg.MaxHistory());
    if bars == [] || bars[|bars| - 1].Color() != bar.Color() {
      assert Trailing(bars, bar.Color()) == 0;
    }
  }

  lemma DecideKeepsMemory(cfg: Config, s: State, ctx: Context)
    ensures var t := Decide(cfg, s, ctx).state;
            t.closes == s.closes && t.streak == s.streak && t.contract == s.contract && t.instrument == s.instrument
  {
  }

  lemma BarRemembers(cfg: Config, s: State, bars: seq<Bar>, bar: Bar, r: bool, a: bool, u: bool)
    requires cfg.Usable() && Remembers(cfg, s, bars)
    ensures Remembers(cfg, OnBar(cfg, s, bar, r, a, u).state, bars + [bar])
  {
    AbsorbRemembers(cfg, s, bars, bar);
    var input := Input(bar.end, Some(bar), BarClosed, r, a, u);
    var armed := ArmBreakout(cfg, Absorb(cfg, s, bar), input);
    DecideKeepsMemory(cfg, armed, ContextOf(cfg, armed, input));
  }

  lemma StepKeepsMemory(cfg: Config, s: State, e: Event)
    requires cfg.Usable()
    ensures Step(cfg, s, e).contract == s.contract && Step(cfg, s, e).instrument == s.instrument
    ensures !e.BarEvent? && !e.ResetEvent? ==> Step(cfg, s, e).closes == s.closes && Step(cfg, s, e).streak == s.streak
  {
    match e
    case BarEvent(bar, r, a, u) =>
      EvaluateKeepsMemory(cfg, Absorb(cfg, s, bar), Input(bar.end, Some(bar), BarClosed, r, a, u));
    case TradeEvent(price, at, a, u) =>
      EvaluateKeepsMemory(cfg, s.(lastPrice := Some(price)), Input(at, None, TradePrice, true, a, u));
    case TickEvent(now, a, u) => EvaluateKeepsMemory(cfg, s, Input(now, None, ClockTick, true, a, u));
    case _ =>
  }

  lemma EvaluateKeepsMemory(cfg: Config, s: State, input: Input)
    requires cfg.Usable()
    ensures var t := Evaluate(cfg, s, input).state;
            t.closes == s.closes && t.streak == s.streak && t.contract == s.contract && t.instrument == s.instrument
  {
    var armed := ArmBreakout(cfg, s, input);
    DecideKeepsMemory(cfg, armed, ContextOf(cfg, armed, input));
  }

  lemma StepRemembers(cfg: Config, s: State, bars: seq<Bar>, e: Event)
    requires cfg.Usable() && Remembers(cfg, s, bars)
    ensures var now := if e.BarEvent? && Tracks(s, e.bar) then bars + [e.bar] else if e.ResetEvent? then [] else bars;
            Remembers(cfg, Step(cfg, s, e), now)
  {
    StepKeepsMemory(cfg, s, e);
    if e.BarEvent? && Tracks(s, e.bar) {
      BarRemembers(cfg, s, bars, e.bar, e.reliable, e.activeOrder, e.uncertain);
    }
    hide OnBar, OnTrade, OnTick, OnFill;
  }

  lemma {:induction false} RunRemembers(cfg: Config, s: State, events: seq<Event>)
    requires cfg.Usable() && Remembers(cfg, s, [])
    ensures Remembers(cfg, Run(cfg, s, events), History(cfg, s, events))
    ensures Run(cfg, s, events).contract == s.contract && Run(cfg, s, events).instrument == s.instrument
  {
    hide Step, Remembers;
    if events != [] {
      var before, e := Run(cfg, s, events[..|events| - 1]), events[|events| - 1];
      RunRemembers(cfg, s, events[..|events| - 1]);
      StepKeepsMemory(cfg, before, e);
      StepRemembers(cfg, before, History(cfg, s, events[..|events| - 1]), e);
    }
  }

  /** Dropping old closes never changes the averages: they are those of the whole history. */
  lemma AveragesIgnoreTruncation(cfg: Config, s: State, bars: seq<Bar>)
    requires cfg.Usable() && Remembers(cfg, s, bars)
    ensures MaOf(cfg, s) == Series(Closes(bars), cfg.maWindow, cfg.flatLookback + 2)
    ensures |MaOf(cfg, s)| - 1 >= cfg.flatLookback <==> |bars| >= cfg.maWindow + cfg.flatLookback
  {
    if |bars| > cfg.MaxHistory() {
      TruncationKeepsSeries(Closes(bars), cfg.maWindow, cfg.flatLookback + 2, cfg.MaxHistory());
    }
  }

  predicate EndsInTwo(bars: seq<Bar>, color: CandleColor) {
    |bars| >= 2 && bars[|bars| - 1].Color() == color && bars[|bars| - 2].Color() == color
  }

  /** The last two bars have this colour and the newest close beats the one a window earlier. */
  ghost predicate Momentum(cfg: Config, bars: seq<Bar>, color: CandleColor) {
    var n := |bars|;
    && EndsInTwo(bars, color)
    && n > cfg.maWindow
    && (if color == Red then bars[n - 1].close > bars[n - 1 - cfg.maWindow].close
        else bars[n - 1].close < bars[n - 1 - cfg.maWindow].close)
  }

  /** Everything an entry needs of a bar besides momentum. */
  ghost predicate EntryAllowed(cfg: Config, armed: State, bars: seq<Bar>, e: Event)
    requires cfg.Usable() && e.BarEvent?
  {
    && armed.side == Flat && e.reliable && !e.activeOrder && !e.uncertain
    && !cfg.InBand(e.bar.end)
    && |bars| >= cfg.maWindow + cfg.flatLookback
    && !Choppy(cfg, armed)
  }

  /** The state a bar is judged in. */
  function Armed(cfg: Config, before: State, e: Event): State
    requires cfg.Usable() && e.BarEvent?
  {
    ArmBreakout(cfg, Absorb(cfg, before, e.bar),
                Input(e.bar.end, Some(e.bar), BarClosed, e.reliable, e.activeOrder, e.uncertain))
  }

  lemma EntryAt(cfg: Config, before: State, earlier: seq<Bar>, e: Event)
    requires cfg.Usable() && e.BarEvent? && Sound(before) && Remembers(cfg, before, earlier)
    ensures var bars := earlier + [e.bar];
            var armed := Armed(cfg, before, e);
            var signal := OnBar(cfg, before, e.bar, e.reliable, e.activeOrder, e.uncertain).decision.signal;
            && (signal == Some(EnterLong) <==> EntryAllowed(cfg, armed, bars, e) && Momentum(cfg, bars, Red))
            && (signal == Some(EnterShort) <==> EntryAllowed(cfg, armed, bars, e) && Momentum(cfg, bars, Black))
  {
    var bars, armed := earlier + [e.bar], Armed(cfg, before, e);
    AbsorbRemembers(cfg, before, earlier, e.bar);
    assert Remembers(cfg, armed, bars) && Sound(armed);
    EntryJudged(cfg, armed, bars, Input(e.bar.end, Some(e.bar), BarClosed, e.reliable, e.activeOrder, e.uncertain));
  }

  lemma EntryJudged(cfg: Config, armed: State, bars: seq<Bar>, input: Input)
    requires cfg.Usable() && input.bar.Some? && Sound(armed) && bars != [] && Remembers(cfg, armed, bars)
    ensures var signal := Decide(cfg, armed, ContextOf(cfg, armed, input)).decision.signal;
            var open := armed.side == Flat && input.reliable && !input.activeOrder && !input.uncertain
                        && !cfg.InBand(input.now) && |bars| >= cfg.maWindow + cfg.flatLookback && !Choppy(cfg, armed);
            && (signal == Some(EnterLong) <==> open && Momentum(cfg, bars, Red))
            && (signal == Some(EnterShort) <==> open && Momentum(cfg, bars, Black))
  {
    var ctx := ContextOf(cfg, armed, input);
    if armed.side == Flat {
      SlopeOfHistory(cfg, armed, bars);
      TwoTrailing(bars);
      hide MaOf, Trailing, Closes, Decide, CheckEntry;
      FlatDecides(cfg, armed, ctx);
      EntryChecked(cfg, armed, ctx, bars);
    } else {
      OpenNeverEnters(cfg, armed, ctx);
    }
  }

  lemma SlopeOfHistory(cfg: Config, s: State, bars: seq<Bar>)
    requires cfg.Usable() && bars != [] && Remembers(cfg, s, bars)
    ensures |MaOf(cfg, s)| - 1 >= cfg.flatLookback <==> |bars| >= cfg.maWindow + cfg.flatLookback
    ensures var slope := DetermineSlope(Newest(MaOf(cfg, s)), SecondNewest(MaOf(cfg, s)));
            && (slope == Up <==>
                  |bars| > cfg.maWindow && bars[|bars| - 1].close > bars[|bars| - 1 - cfg.maWindow].close)
            && (slope == Down <==>
                  |bars| > cfg.maWindow && bars[|bars| - 1].close < bars[|bars| - 1 - cfg.maWindow].close)
  {
    hide MaOf, Series, DetermineSlope, Remembers;
    AveragesIgnoreTruncation(cfg, s, bars);
    SlopeIsWindowComparison(Closes(bars), cfg.maWindow, cfg.flatLookback + 2);
  }

  lemma FlatDecides(cfg: Config, s: State, ctx: Context)
    requires Sound(s) && s.side == Flat
    ensures Decide(cfg, s, ctx) == Outcome(s, CheckEntry(cfg, s, ctx))
  {
  }

  lemma OpenNeverEnters(cfg: Config, s: State, ctx: Context)
    requires s.side != Flat
    ensures Decide(cfg, s, ctx).decision.signal in {None, Some(ExitAll)}
  {
  }

  lemma TwoTrailing(bars: seq<Bar>)
    requires bars != []
    ensures var c := bars[|bars| - 1].Color();
            Trailing(bars, c) >= 2 <==> |bars| >= 2 && bars[|bars| - 2].Color() == c
  {
    var c := bars[|bars| - 1].Color();
    assert Trailing(bars, c) == 1 + Trailing(bars[..|bars| - 1], c);
  }

  lemma EntryChecked(cfg: Config, s: State, ctx: Context, bars: seq<Bar>)
    requires cfg.Usable() && s.side == Flat && ctx.bar.Some? && bars != []
    requires forall c :: c != Doji ==>
               (s.streak.color == Some(c) && s.streak.length >= 2 <==> EndsInTwo(bars, c))
    requires |ctx.ma| - 1 >= cfg.flatLookback <==> |bars| >= cfg.maWindow + cfg.flatLookback
    requires var slope := DetermineSlope(Newest(ctx.ma), SecondNewest(ctx.ma));
             && (slope == Up <==>
                   |bars| > cfg.maWindow && bars[|bars| - 1].close > bars[|bars| - 1 - cfg.maWindow].close)
             && (slope == Down <==>
                   |bars| > cfg.maWindow && bars[|bars| - 1].close < bars[|bars| - 1 - cfg.maWindow].close)
    ensures var signal := CheckEntry(cfg, s, ctx).signal;
            var open := ctx.reliable && !ctx.activeOrder && !ctx.uncertain && !cfg.InBand(ctx.now)
                        && |bars| >= cfg.maWindow + cfg.flatLookback && !ctx.choppy;
            && (signal == Some(EnterLong) <==> open && Momentum(cfg, bars, Red))
            && (signal == Some(EnterShort) <==> open && Momentum(cfg, bars, Black))
  {
    assert EndsInTwo(bars, Red) || !EndsInTwo(bars, Red);
    assert EndsInTwo(bars, Black) || !EndsInTwo(bars, Black);
    hide BucketFor;
  }
}
