/** Conservation laws of FIFO matching. Everything is counted in units: one lot of one fill. */
module FifoProofs {
  import opened Domain
  import opened FifoModel

  // ---- units ----

  function Repeat(f: Fill, n: nat): (r: seq<Fill>)
    ensures |r| == n && forall i | 0 <= i < n :: r[i] == f
  {
    seq(n, _ => f)
  }

  /** The lots the matches consume, in order, one unit each. */
  function OpenerUnits(matches: seq<Match>): seq<Fill> {
    if matches == [] then [] else
    OpenerUnits(matches[..|matches| - 1]) + Repeat(matches[|matches| - 1].opener, matches[|matches| - 1].quantity)
  }

  function CloserUnits(matches: seq<Match>): seq<Fill> {
    if matches == [] then [] else
    CloserUnits(matches[..|matches| - 1]) + Repeat(matches[|matches| - 1].closer, matches[|matches| - 1].quantity)
  }

  function QueueUnits(queue: seq<Lot>): seq<Fill> {
    if queue == [] then [] else Repeat(queue[0].fill, queue[0].remaining) + QueueUnits(queue[1..])
  }

  // ---- the reference: what opens and what closes, from the net position alone ----

  function NetOf(fills: seq<Fill>): int {
    if fills == [] then 0
    else NetOf(fills[..|fills| - 1]) + Signed(fills[|fills| - 1].side, fills[|fills| - 1].quantity)
  }

  /** How much of a fill adds to the position instead of reducing it. */
  function OpeningQuantity(net: int, f: Fill): nat {
    if net == 0 || (net > 0 <==> f.side == Buy) then f.quantity
    else if f.quantity > Magnitude(net) then f.quantity - Magnitude(net)
    else 0
  }

  function OpeningUnits(fills: seq<Fill>): seq<Fill> {
    if fills == [] then [] else
    var f, net := fills[|fills| - 1], NetOf(fills[..|fills| - 1]);
    OpeningUnits(fills[..|fills| - 1]) + Repeat(f, OpeningQuantity(net, f))
  }

  function ClosingUnits(fills: seq<Fill>): seq<Fill> {
    if fills == [] then [] else
    var f, net := fills[|fills| - 1], NetOf(fills[..|fills| - 1]);
    ClosingUnits(fills[..|fills| - 1]) + Repeat(f, f.quantity - OpeningQuantity(net, f))
  }

  // ---- one queue ----

  ghost predicate OneSided(queue: seq<Lot>, side: Side) {
    forall i | 0 <= i < |queue| :: queue[i].fill.side == side && queue[i].remaining > 0
  }

  lemma {:induction false} QueueUnitsConcat(a: seq<Lot>, b: seq<Lot>)
    ensures QueueUnits(a + b) == QueueUnits(a) + QueueUnits(b)
  {
    if a == [] {
      assert a + b == b;
    } else {
      assert (a + b)[1..] == a[1..] + b;
      QueueUnitsConcat(a[1..], b);
    }
  }

  lemma {:induction false} UnitsConcat(a: seq<Match>, b: seq<Match>)
    ensures OpenerUnits(a + b) == OpenerUnits(a) + OpenerUnits(b)
    ensures CloserUnits(a + b) == CloserUnits(a) + CloserUnits(b)
  {
    if b == [] {
      assert a + b == a;
    } else {
      assert (a + b)[..|a + b| - 1] == a + b[..|b| - 1];
      UnitsConcat(a, b[..|b| - 1]);
    }
  }

  lemma UnitsOfOne(m: Match)
    ensures OpenerUnits([m]) == Repeat(m.opener, m.quantity) && CloserUnits([m]) == Repeat(m.closer, m.quantity)
  {
    assert [m][..0] == [];
    assert OpenerUnits([]) == [] && CloserUnits([]) == [];
  }

  /** The matched units and what is left of the queue make up the queue, in order, and the matched part of
      the fill is what is no longer remaining. */
  ghost predicate ConsumesFront(queue: seq<Lot>, fill: Fill, remaining: nat, c: Closing) {
    && c.remaining <= remaining
    && OpenerUnits(c.matches) + QueueUnits(c.queue) == QueueUnits(queue)
    && CloserUnits(c.matches) == Repeat(fill, remaining - c.remaining)
  }

  /** Closing consumes the queue from its front, unit by unit, until the fill or the queue is used up. */
  lemma {:induction false} CloseFrontUnits(queue: seq<Lot>, fill: Fill, remaining: nat)
    ensures var c := CloseFront(queue, fill, remaining);
            && ConsumesFront(queue, fill, remaining, c)
            && (OneSided(queue, Opposite(fill.side)) && c.remaining > 0 ==> c.queue == [])
    decreases |queue|
  {
    hide ConsumesFront, CloseFront;
    if remaining == 0 || queue == [] || queue[0].fill.side == fill.side {
      NothingClosed(queue, fill, remaining);
    } else if queue[0].remaining <= remaining {
      assert OneSided(queue, Opposite(fill.side)) ==> OneSided(queue[1..], Opposite(fill.side));
      CloseFrontUnits(queue[1..], fill, remaining - queue[0].remaining);
      FrontClosed(queue, fill, remaining);
    } else {
      FrontReduced(queue, fill, remaining);
    }
  }

  lemma NothingClosed(queue: seq<Lot>, fill: Fill, remaining: nat)
    requires remaining == 0 || queue == [] || queue[0].fill.side == fill.side
    ensures CloseFront(queue, fill, remaining) == Closing(queue, [], remaining)
    ensures ConsumesFront(queue, fill, remaining, Closing(queue, [], remaining))
  {
    hide QueueUnits;
    assert [] + QueueUnits(queue) == QueueUnits(queue);
    assert OpenerUnits([]) == [] && CloserUnits([]) == [] && Repeat(fill, 0) == [];
  }

  lemma ClosedStep(queue: seq<Lot>, fill: Fill, remaining: nat)
    requires remaining > 0 && queue != [] && queue[0].fill.side != fill.side && queue[0].remaining <= remaining
    ensures var rest := CloseFront(queue[1..], fill, remaining - queue[0].remaining);
            var m := Match(queue[0].fill, fill, queue[0].remaining);
            CloseFront(queue, fill, remaining) == Closing(rest.queue, [m] + rest.matches, rest.remaining)
  {
  }

  lemma FrontClosed(queue: seq<Lot>, fill: Fill, remaining: nat)
    requires remaining > 0 && queue != [] && queue[0].fill.side != fill.side && queue[0].remaining <= remaining
    requires var left := remaining - queue[0].remaining;
             ConsumesFront(queue[1..], fill, left, CloseFront(queue[1..], fill, left))
    ensures var c, rest := CloseFront(queue, fill, remaining),
        CloseFront(queue[1..], fill, remaining - queue[0].remaining);
            ConsumesFront(queue, fill, remaining, c) && c.remaining == rest.remaining && c.queue == rest.queue
  {
    hide CloseFront, Repeat, QueueUnits, OpenerUnits, CloserUnits;
    var front, tail := queue[0], queue[1..];
    ClosedStep(queue, fill, remaining);
    var rest, m := CloseFront(tail, fill, remaining - front.remaining), Match(front.fill, fill, front.remaining);
    UnitsOfOne(m);
    UnitsConcat([m], rest.matches);
    RepeatSplit(fill, front.remaining, remaining - front.remaining - rest.remaining);
    HeadUnits(front, tail);
    assert queue == [front] + tail;
    Reassociate(Repeat(front.fill, front.remaining), OpenerUnits(rest.matches), QueueUnits(rest.queue));
  }

  lemma Reassociate(a: seq<Fill>, b: seq<Fill>, c: seq<Fill>)
    ensures a + (b + c) == (a + b) + c
  {
  }

  lemma ReducedStep(queue: seq<Lot>, fill: Fill, remaining: nat)
    requires remaining > 0 && queue != [] && queue[0].fill.side != fill.side && queue[0].remaining > remaining
    ensures CloseFront(queue, fill, remaining)
         == Closing([Lot(queue[0].fill, queue[0].remaining - remaining)]
             + queue[1..], [Match(queue[0].fill, fill, remaining)], 0)
  {
  }

  lemma HeadUnits(front: Lot, tail: seq<Lot>)
    ensures QueueUnits([front] + tail) == Repeat(front.fill, front.remaining) + QueueUnits(tail)
  {
    assert ([front] + tail)[1..] == tail;
  }

  lemma FrontReduced(queue: seq<Lot>, fill: Fill, remaining: nat)
    requires remaining > 0 && queue != [] && queue[0].fill.side != fill.side && queue[0].remaining > remaining
    ensures var c := CloseFront(queue, fill, remaining); ConsumesFront(queue, fill, remaining, c) && c.remaining == 0
  {
    hide CloseFront, Repeat, QueueUnits, OpenerUnits, CloserUnits;
    var front, tail := queue[0], queue[1..];
    ReducedStep(queue, fill, remaining);
    UnitsOfOne(Match(front.fill, fill, remaining));
    HeadUnits(Lot(front.fill, front.remaining - remaining), tail);
    HeadUnits(front, tail);
    assert queue == [front] + tail;
    RepeatSplit(front.fill, remaining, front.remaining - remaining);
    Reassociate(Repeat(front.fill, remaining), Repeat(front.fill, front.remaining - remaining), QueueUnits(tail));
  }

  /** Concatenation regrouped. */
  lemma Rejoin(first: seq<Fill>, second: seq<Fill>, left: seq<Fill>, before: seq<Fill>, whole: seq<Fill>,
               added: seq<Fill>)
    requires second + left == before + added && first + before == whole
    ensures (first + second) + left == whole + added
  {
    assert (first + second) + left == first + (second + left);
    assert first + (before + added) == (first + before) + added;
  }

  lemma RepeatSplit(f: Fill, a: nat, b: nat)
    ensures Repeat(f, a) + Repeat(f, b) == Repeat(f, a + b)
  {
  }

  lemma {:induction false} CloseFrontSides(queue: seq<Lot>, fill: Fill, remaining: nat)
    requires OneSided(queue, Opposite(fill.side))
    ensures var c := CloseFront(queue, fill, remaining);
            && OneSided(c.queue, Opposite(fill.side))
            && (forall m | m in c.matches :: m.opener.side == Opposite(fill.side) && m.closer == fill && m.quantity > 0)
    decreases |queue|
  {
    if remaining > 0 && queue != [] {
      var quantity := Min(remaining, queue[0].remaining);
      if queue[0].remaining == quantity {
        CloseFrontSides(queue[1..], fill, remaining - quantity);
      }
    }
  }

  /** The queue holds the net position: its side is the sign, its units the magnitude. */
  ghost predicate Holds(queue: seq<Lot>, net: int) {
    && OneSided(queue, if net >= 0 then Buy else Sell)
    && |QueueUnits(queue)| == Magnitude(net)
  }

  lemma TakeUnits(queue: seq<Lot>, fill: Fill, net: int)
    requires Holds(queue, net)
    ensures var step := Take(queue, fill);
            var opening := OpeningQuantity(net, fill);
            && OpenerUnits(step.matches) + QueueUnits(step.queue) == QueueUnits(queue) + Repeat(fill, opening)
            && CloserUnits(step.matches) == Repeat(fill, fill.quantity - opening)
            && Holds(step.queue, net + Signed(fill.side, fill.quantity))
            && (forall m | m in step.matches ::
                  m.opener.side == Opposite(m.closer.side) && m.closer == fill && m.quantity > 0)
  {
    var c := CloseFront(queue, fill, fill.quantity);
    if queue != [] && queue[0].fill.side == fill.side {
      SameSideTakes(queue, fill, net);
    } else {
      EmptyIsFlat(queue, net);
      assert OneSided(queue, Opposite(fill.side));
      CloseFrontUnits(queue, fill, fill.quantity);
      CloseFrontSides(queue, fill, fill.quantity);
      OtherSideTakes(queue, fill, net, c);
    }
  }

  lemma EmptyIsFlat(queue: seq<Lot>, net: int)
    requires Holds(queue, net)
    ensures queue == [] <==> net == 0
  {
    if queue != [] {
      assert queue[0].remaining > 0;
    }
  }

  lemma SameSideTakes(queue: seq<Lot>, fill: Fill, net: int)
    requires Holds(queue, net) && queue != [] && queue[0].fill.side == fill.side
    ensures Take(queue, fill) == QueueStep(queue + [Lot(fill, fill.quantity)], [])
    ensures OpeningQuantity(net, fill) == fill.quantity
    ensures [] + QueueUnits(queue + [Lot(fill, fill.quantity)]) == QueueUnits(queue) + Repeat(fill, fill.quantity)
    ensures Repeat(fill, 0) == []
    ensures Holds(queue + [Lot(fill, fill.quantity)], net + Signed(fill.side, fill.quantity))
  {
    EmptyIsFlat(queue, net);
    AppendLot(queue, fill, fill.quantity);
  }

  lemma OtherSideTakes(queue: seq<Lot>, fill: Fill, net: int, c: Closing)
    requires Holds(queue, net) && (queue == [] <==> net == 0) && OneSided(queue, Opposite(fill.side))
    requires OpenerUnits(c.matches) + QueueUnits(c.queue) == QueueUnits(queue)
    requires c.remaining <= fill.quantity && CloserUnits(c.matches) == Repeat(fill, fill.quantity - c.remaining)
    requires (c.remaining > 0 ==> c.queue == []) && OneSided(c.queue, Opposite(fill.side))
    ensures c.remaining == OpeningQuantity(net, fill)
    ensures var after := if c.remaining > 0 then c.queue + [Lot(fill, c.remaining)] else c.queue;
            && OpenerUnits(c.matches) + QueueUnits(after) == QueueUnits(queue) + Repeat(fill, c.remaining)
            && Holds(after, net + Signed(fill.side, fill.quantity))
  {
    hide Repeat;
    SameUnitCount(c.matches);
    if queue != [] {
      assert queue[0].fill.side == Opposite(fill.side);
    }
    assert |QueueUnits(queue)| == |OpenerUnits(c.matches)| + |QueueUnits(c.queue)|;
    assert c.queue == [] ==> QueueUnits(c.queue) == [];
    AppendLot(c.queue, fill, c.remaining);
    EmptyUnits(c.queue, Opposite(fill.side));
    if c.remaining > 0 {
      assert OpenerUnits(c.matches) + (QueueUnits(c.queue) + Repeat(fill, c.remaining))
          == (OpenerUnits(c.matches) + QueueUnits(c.queue)) + Repeat(fill, c.remaining);
    } else {
      assert QueueUnits(queue) + Repeat(fill, 0) == QueueUnits(queue);
    }
  }

  lemma EmptyUnits(queue: seq<Lot>, side: Side)
    requires OneSided(queue, side)
    ensures QueueUnits(queue) == [] <==> queue == []
  {
    if queue != [] {
      assert queue[0].remaining > 0;
    }
  }

  lemma AppendLot(queue: seq<Lot>, fill: Fill, remaining: nat)
    ensures QueueUnits(queue + [Lot(fill, remaining)]) == QueueUnits(queue) + Repeat(fill, remaining)
  {
    var lot := [Lot(fill, remaining)];
    QueueUnitsConcat(queue, lot);
    assert lot[1..] == [];
    assert QueueUnits(lot) == Repeat(fill, remaining) + QueueUnits([]);
  }

  lemma {:induction false} SameUnitCount(matches: seq<Match>)
    ensures |OpenerUnits(matches)| == |CloserUnits(matches)|
  {
    if matches != [] {
      SameUnitCount(matches[..|matches| - 1]);
    }
  }

  /** FIFO, in full: the units consumed are the units opened, oldest first, with the rest still queued in
      order; the units that close are the units that reduce the position, in order. So the k-th unit closed
      is matched with the k-th unit opened. */
  lemma {:induction false} FifoUnits(fills: seq<Fill>)
    ensures var run := RunQueue(fills);
            && OpenerUnits(run.matches) + QueueUnits(run.queue) == OpeningUnits(fills)
            && CloserUnits(run.matches) == ClosingUnits(fills)
            && |OpenerUnits(run.matches)| == |CloserUnits(run.matches)|
            && Holds(run.queue, NetOf(fills))
            && (forall m | m in run.matches :: m.opener.side == Opposite(m.closer.side) && m.quantity > 0)
  {
    if fills != [] {
      var earlier, f := fills[..|fills| - 1], fills[|fills| - 1];
      FifoUnits(earlier);
      var before := RunQueue(earlier);
      TakeUnits(before.queue, f, NetOf(earlier));
      var now := Take(before.queue, f);
      assert RunQueue(fills) == QueueStep(now.queue, before.matches + now.matches);
      hide Take, RunQueue, Repeat, Holds;
      UnitsConcat(before.matches, now.matches);
      SameUnitCount(before.matches + now.matches);
      var opening := OpeningQuantity(NetOf(earlier), f);
      Rejoin(OpenerUnits(before.matches), OpenerUnits(now.matches), QueueUnits(now.queue), QueueUnits(before.queue),
             OpeningUnits(earlier), Repeat(f, opening));
    } else {
      SameUnitCount([]);
    }
  }

  // ---- any per-lot quantity is conserved ----

  function Times(x: real, n: nat): real {
    x * n as real
  }

  lemma TimesSplit(x: real, a: nat, b: nat)
    ensures Times(x, a + b) == Times(x, a) + Times(x, b)
  {
  }

  function Weight(units: seq<Fill>, w: Fill -> real): real {
    if units == [] then 0.0 else Weight(units[..|units| - 1], w) + w(units[|units| - 1])
  }

  lemma {:induction false} WeightConcat(a: seq<Fill>, b: seq<Fill>, w: Fill -> real)
    ensures Weight(a + b, w) == Weight(a, w) + Weight(b, w)
  {
    if b == [] {
      assert a + b == a;
    } else {
      assert (a + b)[..|a + b| - 1] == a + b[..|b| - 1];
      WeightConcat(a, b[..|b| - 1], w);
    }
  }

  lemma {:induction false} WeightRepeat(f: Fill, n: nat, w: Fill -> real)
    ensures Weight(Repeat(f, n), w) == Times(w(f), n)
  {
    if n > 0 {
      assert Repeat(f, n)[..n - 1] == Repeat(f, n - 1);
      WeightRepeat(f, n - 1, w);
      TimesSplit(w(f), n - 1, 1);
    }
  }

  function TotalOfFills(fills: seq<Fill>, w: Fill -> real): real {
    if fills == [] then 0.0 else
    TotalOfFills(fills[..|fills| - 1], w) + Times(w(fills[|fills| - 1]), fills[|fills| - 1].quantity)
  }

  function TotalOfMatches(matches: seq<Match>, w: Fill -> real): real {
    if matches == [] then 0.0 else
    var m := matches[|matches| - 1];
    TotalOfMatches(matches[..|matches| - 1], w) + (Times(w(m.opener), m.quantity) + Times(w(m.closer), m.quantity))
  }

  function TotalOfLots(queue: seq<Lot>, w: Fill -> real): real {
    if queue == [] then 0.0 else Times(w(queue[0].fill), queue[0].remaining) + TotalOfLots(queue[1..], w)
  }

  lemma {:induction false} MatchesWeight(matches: seq<Match>, w: Fill -> real)
    ensures TotalOfMatches(matches, w) == Weight(OpenerUnits(matches), w) + Weight(CloserUnits(matches), w)
  {
    hide Times, Repeat;
    if matches != [] {
      var rest, m := matches[..|matches| - 1], matches[|matches| - 1];
      MatchesWeight(rest, w);
      WeightConcat(OpenerUnits(rest), Repeat(m.opener, m.quantity), w);
      WeightConcat(CloserUnits(rest), Repeat(m.closer, m.quantity), w);
      WeightRepeat(m.opener, m.quantity, w);
      WeightRepeat(m.closer, m.quantity, w);
    }
  }

  lemma {:induction false} LotsWeight(queue: seq<Lot>, w: Fill -> real)
    ensures TotalOfLots(queue, w) == Weight(QueueUnits(queue), w)
  {
    hide Times, Repeat;
    if queue != [] {
      LotsWeight(queue[1..], w);
      WeightConcat(Repeat(queue[0].fill, queue[0].remaining), QueueUnits(queue[1..]), w);
      WeightRepeat(queue[0].fill, queue[0].remaining, w);
    }
  }

  lemma {:induction false} FillsWeight(fills: seq<Fill>, w: Fill -> real)
    ensures TotalOfFills(fills, w) == Weight(OpeningUnits(fills), w) + Weight(ClosingUnits(fills), w)
  {
    hide Times, Repeat;
    if fills != [] {
      var earlier, f := fills[..|fills| - 1], fills[|fills| - 1];
      var opening := OpeningQuantity(NetOf(earlier), f);
      FillsWeight(earlier, w);
      WeightConcat(OpeningUnits(earlier), Repeat(f, opening), w);
      WeightConcat(ClosingUnits(earlier), Repeat(f, f.quantity - opening), w);
      WeightRepeat(f, opening, w);
      WeightRepeat(f, f.quantity - opening, w);
      TimesSplit(w(f), opening, f.quantity - opening);
    }
  }

  /** Whatever a lot carries - cash, fee, tax, its own identity - the fills' total is what the matches and
      the open lots carry together. */
  lemma QueueConserves(fills: seq<Fill>, w: Fill -> real)
    ensures var run := RunQueue(fills);
            TotalOfFills(fills, w) == TotalOfMatches(run.matches, w) + TotalOfLots(run.queue, w)
  {
    var run := RunQueue(fills);
    FifoUnits(fills);
    FillsWeight(fills, w);
    MatchesWeight(run.matches, w);
    LotsWeight(run.queue, w);
    WeightConcat(OpenerUnits(run.matches), QueueUnits(run.queue), w);
  }

  /** Each match uses up a lot or the fill, so there are never more matches than fills. */
  lemma {:induction false} FewMatches(fills: seq<Fill>)
    ensures var run := RunQueue(fills); |run.matches| + |run.queue| <= |fills|
  {
    if fills != [] {
      FewMatches(fills[..|fills| - 1]);
      CloseFrontCount(RunQueue(fills[..|fills| - 1]).queue, fills[|fills| - 1], fills[|fills| - 1].quantity);
    }
  }

  lemma {:induction false} CloseFrontCount(queue: seq<Lot>, fill: Fill, remaining: nat)
    ensures var c := CloseFront(queue, fill, remaining);
            |c.matches| + |c.queue| <= |queue| + (if c.remaining == 0 then 1 else 0)
    decreases |queue|
  {
    if remaining > 0 && queue != [] && queue[0].fill.side != fill.side {
      CloseFrontCount(queue[1..], fill, remaining - Min(remaining, queue[0].remaining));
    }
  }
}
