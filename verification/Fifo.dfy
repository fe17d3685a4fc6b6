/** FIFO lot matching: one pass over the sorted ledger, closing the oldest open lots first. */
module FifoModel {
  import opened Domain

  datatype LedgerFill = LedgerFill(id: string, account: string, instrument: Instrument, contract: string, side: Side,
                                   quantity: int, price: real, at: int, tradingDay: int, commission: Option<real>,
                                   tax: Option<real>, simulation: bool)
  {
    /** What every ledger fill is checked for when it is built. */
    predicate Valid() {
      && quantity > 0 && price > 0.0
      && (commission.Some? ==> commission.value >= 0.0)
      && (tax.Some? ==> tax.value >= 0.0)
    }

    function FeePerLot(): real
      requires quantity != 0
    {
      (if commission.Some? then commission.value else 0.0) / quantity as real
    }

    function TaxPerLot(): real
      requires quantity != 0
    {
      (if tax.Some? then tax.value else 0.0) / quantity as real
    }
  }

  type Fill = f: LedgerFill | f.Valid() witness LedgerFill("f", "*", Mxf, "c", Buy, 1, 1.0, 0, 0, None, None, false)

  datatype Key = Key(instrument: Instrument, contract: string, account: string)

  function KeyOf(f: Fill): Key {
    Key(f.instrument, f.contract, f.account)
  }

  // ---- the order of the pass ----

  /** Strings compare by code point, a prefix first. */
  predicate LexLe(a: string, b: string) {
    a == [] || (b != [] && (a[0] < b[0] || (a[0] == b[0] && LexLe(a[1..], b[1..]))))
  }

  predicate Comes(a: Fill, b: Fill) {
    a.at < b.at || (a.at == b.at && LexLe(a.id, b.id))
  }

  function Insert(f: Fill, sorted: seq<Fill>): seq<Fill> {
    if sorted == [] || !Comes(sorted[0], f) then [f] + sorted else [sorted[0]] + Insert(f, sorted[1..])
  }

  /** The stable sort by time, then fill id. */
  function Sort(fills: seq<Fill>): seq<Fill> {
    if fills == [] then [] else Insert(fills[|fills| - 1], Sort(fills[..|fills| - 1]))
  }

  // ---- one queue ----

  datatype Lot = Lot(fill: Fill, remaining: nat)

  /** `quantity` lots of `opener` closed by `closer`. */
  datatype Match = Match(opener: Fill, closer: Fill, quantity: nat)

  datatype Closing = Closing(queue: seq<Lot>, matches: seq<Match>, remaining: nat)

  function Min(a: nat, b: nat): nat {
    if a < b then a else b
  }

  /** Close the front of the queue with a fill of the other side, as far as either goes. */
  function CloseFront(queue: seq<Lot>, fill: Fill, remaining: nat): Closing {
    if remaining == 0 || queue == [] || queue[0].fill.side == fill.side then Closing(queue, [], remaining)
    else
      var front := queue[0];
      var quantity := Min(remaining, front.remaining);
      var m := Match(front.fill, fill, quantity);
      if front.remaining == quantity then
        var rest := CloseFront(queue[1..], fill, remaining - quantity);
        Closing(rest.queue, [m] + rest.matches, rest.remaining)
      else Closing([front.(remaining := front.remaining - quantity)] + queue[1..], [m], 0)
  }

  datatype QueueStep = QueueStep(queue: seq<Lot>, matches: seq<Match>)

  /** What is left of the fill opens a new lot at the back. */
  function Take(queue: seq<Lot>, fill: Fill): QueueStep {
    var c := CloseFront(queue, fill, fill.quantity);
    QueueStep(if c.remaining > 0 then c.queue + [Lot(fill, c.remaining)] else c.queue, c.matches)
  }

  /** One key's fills, in order. */
  function RunQueue(fills: seq<Fill>): QueueStep {
    if fills == [] then QueueStep([], [])
    else
      var before := RunQueue(fills[..|fills| - 1]);
      var now := Take(before.queue, fills[|fills| - 1]);
      QueueStep(now.queue, before.matches + now.matches)
  }

  // ---- the whole ledger ----

  /** Queues by key, with the keys in order of first use. */
  datatype Book = Book(order: seq<Key>, queues: map<Key, seq<Lot>>, matches: seq<Match>)

  const EMPTY_BOOK := Book([], map[], [])

  function QueueOf(book: Book, key: Key): seq<Lot> {
    if key in book.queues then book.queues[key] else []
  }

  function Post(book: Book, fill: Fill): Book {
    var key := KeyOf(fill);
    var step := Take(QueueOf(book, key), fill);
    Book(if key in book.queues then book.order else book.order + [key], book.queues[key := step.queue],
         book.matches + step.matches)
  }

  function PostAll(fills: seq<Fill>): Book {
    if fills == [] then EMPTY_BOOK else Post(PostAll(fills[..|fills| - 1]), fills[|fills| - 1])
  }

  type Multipliers = map<(Instrument, string), real>

  predicate Priced(multipliers: Multipliers, f: Fill) {
    (f.instrument, f.contract) in multipliers && multipliers[(f.instrument, f.contract)] > 0.0
  }

  // ---- money ----

  /** Half up, away from zero. */
  function MoneyRound(x: real): real {
    if x >= 0.0 then (x + 0.5).Floor as real else -((0.5 - x).Floor as real)
  }

  datatype RealizedTrade = RealizedTrade(tradingDay: int, instrument: Instrument, contract: string, side: Side,
      quantity: int,
                                         openPrice: real, closePrice: real, multiplier: real, gross: real,
                                         commission: real, tax: real, net: real, openFillId: string,
                                         closeFillId: string, simulation: bool)

  function ExactGross(m: Match, multiplier: real): real {
    (m.closer.price - m.opener.price) * (if m.opener.side == Buy then 1.0 else -1.0) * multiplier * m.quantity as real
  }

  function ExactFees(m: Match): real {
    m.opener.FeePerLot() * m.quantity as real + m.closer.FeePerLot() * m.quantity as real
  }

  function ExactTaxes(m: Match): real {
    m.opener.TaxPerLot() * m.quantity as real + m.closer.TaxPerLot() * m.quantity as real
  }

  function MultiplierOf(multipliers: Multipliers, m: Match): real {
    if (m.closer.instrument, m.closer.contract) in multipliers then multipliers[(m.closer.instrument,
        m.closer.contract)] else 0.0
  }

  function Realize(m: Match, multipliers: Multipliers): RealizedTrade {
    var multiplier := MultiplierOf(multipliers, m);
    var gross, commission, tax := MoneyRound(ExactGross(m, multiplier)), MoneyRound(ExactFees(m)),
        MoneyRound(ExactTaxes(m));
    RealizedTrade(m.closer.tradingDay, m.closer.instrument, m.closer.contract, m.opener.side, m.quantity,
        m.opener.price,
                  m.closer.price, multiplier, gross, commission, tax, gross - commission - tax, m.opener.id,
                      m.closer.id,
                  m.opener.simulation && m.closer.simulation)
  }

  function RealizeAll(matches: seq<Match>, multipliers: Multipliers): (r: seq<RealizedTrade>)
    ensures |r| == |matches|
  {
    seq(|matches|, i requires 0 <= i < |matches| => Realize(matches[i], multipliers))
  }

  /** Every open lot, key by key in order of first use. */
  function OpenLots(order: seq<Key>, queues: map<Key, seq<Lot>>): seq<Lot> {
    if order == [] then [] else
    OpenLots(order[..|order| - 1], queues)
    + (if order[|order| - 1] in queues then queues[order[|order| - 1]] else [])
  }

  datatype FifoResult = FifoResult(trades: seq<RealizedTrade>, openLots: seq<Lot>)
}

module Fifo {
  import opened Domain
  import opened FifoModel

  /** The first fill in order without a positive multiplier fails the whole pass. */
  method MatchFills(fills: seq<Fill>, multipliers: Multipliers) returns (r: Option<FifoResult>)
    ensures r.Some? <==> forall f | f in Sort(fills) :: Priced(multipliers, f)
    ensures r.Some? ==> var book := PostAll(Sort(fills));
                        && r.value.trades == RealizeAll(book.matches, multipliers)
                        && r.value.openLots == OpenLots(book.order, book.queues)
  {
    hide Take, CloseFront, Realize, Sort, RealizeAll, Priced;
    RealizeNone(multipliers);
    var sorted := Sort(fills);
    var positions: map<Key, seq<Lot>> := map[];
    var order: seq<Key> := [];
    var trades: seq<RealizedTrade> := [];
    for n := 0 to |sorted|
      invariant forall i | 0 <= i < n :: Priced(multipliers, sorted[i])
      invariant var book := PostAll(sorted[..n]);
                book.order == order && book.queues == positions && trades == RealizeAll(book.matches, multipliers)
    {
      var fill := sorted[n];
      assert fill in sorted && sorted[..n + 1][..n] == sorted[..n];
      if !Priced(multipliers, fill) {
        return None;
      }
      var key := KeyOf(fill);
      if key !in positions {
        order := order + [key];
      }
      var queue, realized := MatchFill(if key in positions then positions[key] else [], fill, multipliers);
      RealizeConcat(PostAll(sorted[..n]).matches, Take(QueueOf(PostAll(sorted[..n]), key), fill).matches, multipliers);
      positions := positions[key := queue];
      trades := trades + realized;
    }
    assert sorted[..|sorted|] == sorted;
    var open := Flatten(order, positions);
    r := Some(FifoResult(trades, open));
  }

  method MatchFill(queue0: seq<Lot>, fill: Fill, multipliers: Multipliers)
                   returns (queue: seq<Lot>, trades: seq<RealizedTrade>)
    ensures var step := Take(queue0, fill); queue == step.queue && trades == RealizeAll(step.matches, multipliers)
  {
    hide Realize, CloseFront, RealizeAll;
    queue, trades := queue0, [];
    ghost var matches: seq<Match> := [];
    ghost var goal := CloseFront(queue0, fill, fill.quantity);
    RealizeNone(multipliers);
    assert matches + goal.matches == goal.matches;
    var remaining: nat := fill.quantity;
    while remaining > 0 && queue != [] && queue[0].fill.side != fill.side
      invariant trades == RealizeAll(matches, multipliers)
      invariant var rest := CloseFront(queue, fill, remaining);
                goal == Closing(rest.queue, matches + rest.matches, rest.remaining)
      decreases remaining, |queue|
    {
      var front := queue[0];
      var quantity := Min(remaining, front.remaining);
      var m := Match(front.fill, fill, quantity);
      CloseOne(queue, fill, remaining, matches);
      RealizeMore(matches, m, multipliers);
      trades := trades + [Realize(m, multipliers)];
      matches := matches + [m];
      remaining := remaining - quantity;
      if front.remaining == quantity {
        queue := queue[1..];
      } else {
        queue := [front.(remaining := front.remaining - quantity)] + queue[1..];
      }
    }
    CloseNone(queue, fill, remaining);
    assert matches + [] == matches;
    if remaining > 0 {
      queue := queue + [Lot(fill, remaining)];
    }
  }

  lemma RealizeNone(multipliers: Multipliers)
    ensures RealizeAll([], multipliers) == []
  {
  }

  lemma RealizeMore(matches: seq<Match>, m: Match, multipliers: Multipliers)
    ensures RealizeAll(matches + [m], multipliers) == RealizeAll(matches, multipliers) + [Realize(m, multipliers)]
  {
    hide Realize;
  }

  lemma RealizeConcat(a: seq<Match>, b: seq<Match>, multipliers: Multipliers)
    ensures RealizeAll(a + b, multipliers) == RealizeAll(a, multipliers) + RealizeAll(b, multipliers)
  {
    hide Realize;
  }

  lemma CloseNone(queue: seq<Lot>, fill: Fill, remaining: nat)
    requires remaining == 0 || queue == [] || queue[0].fill.side == fill.side
    ensures CloseFront(queue, fill, remaining) == Closing(queue, [], remaining)
  {
  }

  /** One turn of the loop, with the matches made so far. */
  lemma CloseOne(queue: seq<Lot>, fill: Fill, remaining: nat, matches: seq<Match>)
    requires remaining > 0 && queue != [] && queue[0].fill.side != fill.side
    ensures var front := queue[0];
            var quantity := Min(remaining, front.remaining);
            var m := Match(front.fill, fill, quantity);
            var left := if front.remaining == quantity then queue[1..]
                        else [front.(remaining := front.remaining - quantity)] + queue[1..];
            var whole, rest := CloseFront(queue, fill, remaining), CloseFront(left, fill, remaining - quantity);
            && whole.queue == rest.queue && whole.remaining == rest.remaining
            && matches + whole.matches == (matches + [m]) + rest.matches
  {
    var front := queue[0];
    var quantity := Min(remaining, front.remaining);
    var m := Match(front.fill, fill, quantity);
    if front.remaining != quantity {
      CloseNone([front.(remaining := front.remaining - quantity)] + queue[1..], fill, 0);
    }
  }

  method Flatten(order: seq<Key>, positions: map<Key, seq<Lot>>) returns (open: seq<Lot>)
    ensures open == OpenLots(order, positions)
  {
    open := [];
    for k := 0 to |order|
      invariant open == OpenLots(order[..k], positions)
    {
      assert order[..k + 1][..k] == order[..k];
      open := open + (if order[k] in positions then positions[order[k]] else []);
    }
    assert order[..|order|] == order;
  }
}
