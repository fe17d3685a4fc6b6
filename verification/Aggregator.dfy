/** Aggregation of live trades into 60-minute bars, with a completeness flag. */
module AggregatorModel {
  import opened Domain
  import opened CalendarModel

  /** A recorded quote callback; only a usable one is a trade. */
  datatype Event = Event(isTrade: bool, matchedAt: Option<int>, price: Option<real>, quantity: Option<int>,
                         total: Option<int>, timeRaw: string, sequence: int, sessionId: string)
  {
    predicate Usable() {
      isTrade && matchedAt.Some? && price.Some? && quantity.Some? && total.Some?
    }
  }

  datatype Fingerprint = Fingerprint(timeRaw: string, price: Option<real>, quantity: Option<int>, total: Option<int>)

  function PrintOf(e: Event): Fingerprint {
    Fingerprint(e.timeRaw, e.price, e.quantity, e.total)
  }

  datatype Forming = Forming(boundary: Boundary, open: real, high: real, low: real, close: real, volume: int,
                             firstSequence: int, lastSequence: int, lastPrint: Fingerprint, lastTotal: int,
                             lastSession: string, complete: bool)

  /** A reported gap; without an end it is still open. */
  datatype Gap = Gap(start: int, end: Option<int>)

  datatype Closed = Closed(bar: Bar, tradingDay: int, session: MarketSession, firstSequence: int, lastSequence: int,
                           complete: bool)

  datatype Setup = Setup(instrument: Instrument, contract: string, resolve: int -> Option<Boundary>,
      startedAt: Option<int>)

  datatype Agg = Agg(forming: Option<Forming>, gaps: seq<Gap>)

  predicate Overlaps(g: Gap, b: Boundary) {
    g.start < b.end && (g.end.None? || g.end.value >= b.start)
  }

  /** An open gap ends at the first trade at or after its start. */
  function Touch(g: Gap, at: int): Gap {
    if g.end.None? && at >= g.start then Gap(g.start, Some(at)) else g
  }

  /** Gaps that ended before the boundary are dropped, open ones are ended. */
  function UpdateGaps(gaps: seq<Gap>, at: int, boundaryStart: int): seq<Gap> {
    if gaps == [] then []
    else
      var g := gaps[|gaps| - 1];
      UpdateGaps(gaps[..|gaps| - 1], at, boundaryStart)
      + (if g.end.None? || g.end.value >= boundaryStart then [Touch(g, at)] else [])
  }

  predicate NeedsReview(setup: Setup, gaps: seq<Gap>, b: Boundary) {
    || (setup.startedAt.Some? && b.start < setup.startedAt.value)
    || (exists i :: 0 <= i < |gaps| && Overlaps(gaps[i], b))
  }

  function BarOf(setup: Setup, f: Forming): Bar {
    Bar(setup.instrument, setup.contract, f.open, f.high, f.low, f.close, f.volume, f.boundary.start, f.boundary.end)
  }

  function CloseOf(setup: Setup, f: Forming): Closed {
    Closed(BarOf(setup, f), f.boundary.tradingDay, f.boundary.session, f.firstSequence, f.lastSequence, f.complete)
  }

  datatype Step = Step(state: Agg, closed: seq<Closed>)

  predicate Passed(s: Agg, now: int) {
    s.forming.Some? && now >= s.forming.value.boundary.end
  }

  function Advance(setup: Setup, s: Agg, now: int): Step {
    if Passed(s, now) then Step(s.(forming := None), [CloseOf(setup, s.forming.value)]) else Step(s, [])
  }

  function Begin(b: Boundary, e: Event, complete: bool): Forming
    requires e.Usable()
  {
    Forming(b, e.price.value, e.price.value, e.price.value, e.price.value, e.quantity.value, e.sequence, e.sequence,
            PrintOf(e), e.total.value, e.sessionId, complete)
  }

  function Merge(f: Forming, e: Event): Forming
    requires e.Usable()
  {
    var p := e.price.value;
    f.(high := if p > f.high then p else f.high, low := if p < f.low then p else f.low, close := p,
       volume := f.volume + e.quantity.value,
       firstSequence := if e.sessionId != f.lastSession && e.sequence < f.firstSequence then e.sequence
           else f.firstSequence,
       lastSequence := e.sequence, lastPrint := PrintOf(e), lastTotal := e.total.value, lastSession := e.sessionId,
       complete := f.complete && e.sessionId == f.lastSession && e.total.value >= f.lastTotal)
  }

  /** A trade meets the bar being formed. */
  function Extend(f0: Forming, b: Boundary, e: Event, review: bool): Forming
    requires e.Usable()
  {
    var f := if review then f0.(complete := false) else f0;
    if b.start != f.boundary.start then f.(complete := false)
    else if PrintOf(e) == f.lastPrint then f
    else if e.sessionId == f.lastSession && e.sequence <= f.lastSequence then f.(complete := false)
    else Merge(f, e)
  }

  function Accept(setup: Setup, s: Agg, e: Event): Step {
    if !e.Usable() || setup.resolve(e.matchedAt.value).None? then Step(s, [])
    else
      var at, b := e.matchedAt.value, setup.resolve(e.matchedAt.value).value;
      var gaps := UpdateGaps(s.gaps, at, b.start);
      var review := NeedsReview(setup, gaps, b);
      var advanced := Advance(setup, s.(gaps := gaps), at);
      var f := advanced.state.forming;
      Step(advanced.state.(forming := Some(if f.None? then Begin(b, e, !review) else Extend(f.value, b, e, review))),
           advanced.closed)
  }

  function MarkIncomplete(s: Agg, start: Option<int>, end: Option<int>): Agg {
    var gaps := if start.Some? then s.gaps + [Gap(start.value, end)] else s.gaps;
    if s.forming.Some? && (start.None? || Overlaps(Gap(start.value, end), s.forming.value.boundary))
    then Agg(Some(s.forming.value.(complete := false)), gaps)
    else s.(gaps := gaps)
  }
}

module Aggregator {
  import opened Domain
  import opened CalendarModel
  import opened AggregatorModel

  class RealtimeBarAggregator {
    const setup: Setup
    var forming: Option<Forming>
    var gaps: seq<Gap>

    function Value(): Agg
      reads this
    {
      Agg(forming, gaps)
    }

    constructor (setup: Setup)
      ensures this.setup == setup && Value() == Agg(None, [])
    {
      this.setup := setup;
      forming, gaps := None, [];
    }

    method AcceptEvent(e: Event) returns (closed: seq<Closed>)
      modifies this
      ensures var step := Accept(setup, old(Value()), e); Value() == step.state && closed == step.closed
    {
      if !e.isTrade || e.matchedAt.None? || e.price.None? {
        return [];
      }
      if e.quantity.None? || e.total.None? {
        return [];
      }
      var at := e.matchedAt.value;
      var resolved := setup.resolve(at);
      if resolved.None? {
        return [];
      }
      var b := resolved.value;
      Prune(at, b.start);
      var review := setup.startedAt.Some? && b.start < setup.startedAt.value;
      for i := 0 to |gaps|
        invariant review <==> ((setup.startedAt.Some? && b.start < setup.startedAt.value)
                               || exists j :: 0 <= j < i && Overlaps(gaps[j], b))
      {
        review := review || Overlaps(gaps[i], b);
      }
      assert review == NeedsReview(setup, gaps, b);
      closed := AdvanceTo(at);
      if forming.None? {
        forming := Some(Begin(b, e, !review));
        return;
      }
      Absorb(b, e, review);
    }

    method Prune(at: int, boundaryStart: int)
      modifies this`gaps
      ensures gaps == UpdateGaps(old(gaps), at, boundaryStart)
    {
      var kept: seq<Gap> := [];
      for i := 0 to |gaps|
        invariant gaps == old(gaps) && kept == UpdateGaps(gaps[..i], at, boundaryStart)
      {
        assert gaps[..i + 1][..i] == gaps[..i];
        if gaps[i].end.None? || gaps[i].end.value >= boundaryStart {
          kept := kept + [Touch(gaps[i], at)];
        }
      }
      assert gaps[..|gaps|] == gaps;
      gaps := kept;
    }

    method Absorb(b: Boundary, e: Event, review: bool)
      requires forming.Some? && e.Usable()
      modifies this`forming
      ensures forming == Some(Extend(old(forming).value, b, e, review))
    {
      if review {
        forming := Some(forming.value.(complete := false));
      }
      var f := forming.value;
      if b.start != f.boundary.start {
        forming := Some(f.(complete := false));
        return;
      }
      if PrintOf(e) == f.lastPrint {
        return;
      }
      if e.sessionId != f.lastSession {
        f := f.(complete := false, firstSequence := if e.sequence < f.firstSequence then e.sequence
            else f.firstSequence);
      } else if e.sequence <= f.lastSequence {
        forming := Some(f.(complete := false));
        return;
      }
      if e.total.value < f.lastTotal {
        f := f.(complete := false);
      }
      var p := e.price.value;
      forming := Some(f.(high := if p > f.high then p else f.high, low := if p < f.low then p else f.low, close := p,
                         volume := f.volume + e.quantity.value, lastSequence := e.sequence, lastPrint := PrintOf(e),
                         lastTotal := e.total.value, lastSession := e.sessionId));
    }

    method AdvanceTo(now: int) returns (closed: seq<Closed>)
      modifies this`forming
      ensures var step := Advance(setup, old(Value()), now); Value() == step.state && closed == step.closed
    {
      if forming.None? || now < forming.value.boundary.end {
        return [];
      }
      closed := [CloseOf(setup, forming.value)];
      forming := None;
    }

    method Mark(start: Option<int>, end: Option<int>)
      modifies this
      ensures Value() == MarkIncomplete(old(Value()), start, end)
    {
      if start.Some? {
        gaps := gaps + [Gap(start.value, end)];
      }
      if forming.Some? {
        var b := forming.value.boundary;
        if start.None? || (start.value < b.end && (end.None? || end.value >= b.start)) {
          forming := Some(forming.value.(complete := false));
        }
      }
    }
  }
}
