/** The laws of a whole ledger: many keys, money, rounding and the order of the input. */
module LedgerProofs {
  import opened Domain
  import opened FifoModel
  import opened FifoProofs

  // ---- the queues of a ledger are independent ----

  function OfKey(fills: seq<Fill>, key: Key): seq<Fill> {
    if fills == [] then [] else
    OfKey(fills[..|fills| - 1], key) + (if KeyOf(fills[|fills| - 1]) == key then [fills[|fills| - 1]] else [])
  }

  function MatchesOf(matches: seq<Match>, key: Key): seq<Match> {
    if matches == [] then [] else
    MatchesOf(matches[..|matches| - 1], key)
    + (if KeyOf(matches[|matches| - 1].closer) == key then [matches[|matches| - 1]] else [])
  }

  lemma {:induction false} MatchesOfConcat(a: seq<Match>, b: seq<Match>, key: Key)
    ensures MatchesOf(a + b, key) == MatchesOf(a, key) + MatchesOf(b, key)
  {
    if b == [] {
      assert a + b == a;
    } else {
      assert (a + b)[..|a + b| - 1] == a + b[..|b| - 1];
      MatchesOfConcat(a, b[..|b| - 1], key);
    }
  }

  lemma {:induction false} ClosersAre(matches: seq<Match>, f: Fill, key: Key)
    requires forall m | m in matches :: m.closer == f
    ensures MatchesOf(matches, key) == if KeyOf(f) == key then matches else []
  {
    if matches != [] {
      ClosersAre(matches[..|matches| - 1], f, key);
      assert matches[|matches| - 1] in matches;
    }
  }

  lemma {:induction false} CloserIsFill(queue: seq<Lot>, fill: Fill, remaining: nat)
    ensures forall m | m in CloseFront(queue, fill, remaining).matches ::
              m.closer == fill && m.opener.side == Opposite(fill.side) && exists l :: l in queue && l.fill == m.opener
    decreases |queue|
  {
    if remaining > 0 && queue != [] && queue[0].fill.side != fill.side {
      assert queue[0] in queue;
      CloserIsFill(queue[1..], fill, remaining - Min(remaining, queue[0].remaining));
    }
  }

  /** Posting a whole ledger runs, for every key, that key's own queue over that key's own fills. */
  lemma {:induction false} KeysAreIndependent(fills: seq<Fill>, key: Key)
    ensures var run := RunQueue(OfKey(fills, key));
            QueueOf(PostAll(fills), key) == run.queue && MatchesOf(PostAll(fills).matches, key) == run.matches
  {
    if fills != [] {
      var earlier, f := fills[..|fills| - 1], fills[|fills| - 1];
      KeysAreIndependent(earlier, key);
      var book := PostAll(earlier);
      var step := Take(QueueOf(book, KeyOf(f)), f);
      CloserIsFill(QueueOf(book, KeyOf(f)), f, f.quantity);
      MatchesOfConcat(book.matches, step.matches, key);
      ClosersAre(step.matches, f, key);
      var mine := OfKey(fills, key);
      if KeyOf(f) == key {
        assert mine[..|mine| - 1] == OfKey(earlier, key) && mine[|mine| - 1] == f;
        assert RunQueue(mine) == QueueStep(step.queue, RunQueue(OfKey(earlier, key)).matches + step.matches);
      } else {
        assert mine == OfKey(earlier, key);
        assert MatchesOf(book.matches, key) + [] == MatchesOf(book.matches, key);
      }
    }
  }

  /** In every ledger each queue is one-sided and holds exactly its key's net position. */
  lemma QueuesAreOneSided(fills: seq<Fill>, key: Key)
    ensures Holds(QueueOf(PostAll(fills), key), NetOf(OfKey(fills, key)))
  {
    KeysAreIndependent(fills, key);
    FifoUnits(OfKey(fills, key));
  }

  // ---- totals over all keys ----

  ghost predicate OrderOk(book: Book) {
    && (forall k :: k in book.order <==> k in book.queues)
    && (forall i, j | 0 <= i < j < |book.order| :: book.order[i] != book.order[j])
  }

  lemma {:induction false} LotsConcat(a: seq<Lot>, b: seq<Lot>, w: Fill -> real)
    ensures TotalOfLots(a + b, w) == TotalOfLots(a, w) + TotalOfLots(b, w)
  {
    hide Times;
    if a == [] {
      assert a + b == b;
    } else {
      assert (a + b)[1..] == a[1..] + b;
      LotsConcat(a[1..], b, w);
    }
  }

  /** Replacing one key's queue moves the open total by the difference. */
  lemma {:induction false} OpenUpdate(order: seq<Key>, queues: map<Key, seq<Lot>>, key: Key, queue: seq<Lot>,
                                      w: Fill -> real)
    requires forall i, j | 0 <= i < j < |order| :: order[i] != order[j]
    ensures var was, now := OpenLots(order, queues), OpenLots(order, queues[key := queue]);
            var old' := if key in queues then queues[key] else [];
            if key in order then
              TotalOfLots(now, w) == TotalOfLots(was, w) - TotalOfLots(old', w) + TotalOfLots(queue, w)
              && |now| == |was| - |old'| + |queue|
            else now == was
  {
    if order != [] {
      var rest, last := order[..|order| - 1], order[|order| - 1];
      OpenUpdate(rest, queues, key, queue, w);
      LotsConcat(OpenLots(rest, queues), if last in queues then queues[last] else [], w);
      LotsConcat(OpenLots(rest, queues[key := queue]), if last in queues[key := queue] then queues[key := queue][last]
          else [], w);
      if key in rest {
        var i :| 0 <= i < |rest| && rest[i] == key;
        assert order[i] != last;
      }
    }
  }

  lemma CloseFrontConserves(queue: seq<Lot>, fill: Fill, w: Fill -> real)
    ensures var c := CloseFront(queue, fill, fill.quantity);
            && c.remaining <= fill.quantity
            && TotalOfMatches(c.matches, w) + TotalOfLots(c.queue, w)
               == TotalOfLots(queue, w) + Times(w(fill), fill.quantity - c.remaining)
  {
    hide CloseFront, Times, TotalOfLots, TotalOfMatches, OpenerUnits, CloserUnits, QueueUnits, Repeat;
    var c := CloseFront(queue, fill, fill.quantity);
    CloseFrontUnits(queue, fill, fill.quantity);
    MatchesWeight(c.matches, w);
    LotsWeight(c.queue, w);
    LotsWeight(queue, w);
    WeightConcat(OpenerUnits(c.matches), QueueUnits(c.queue), w);
    WeightRepeat(fill, fill.quantity - c.remaining, w);
  }

  lemma TakeConserves(queue: seq<Lot>, fill: Fill, w: Fill -> real)
    ensures var step := Take(queue, fill);
            TotalOfMatches(step.matches, w) + TotalOfLots(step.queue, w) == TotalOfLots(queue, w)
                + Times(w(fill), fill.quantity)
  {
    hide CloseFront, Times, TotalOfLots, TotalOfMatches;
    var c := CloseFront(queue, fill, fill.quantity);
    CloseFrontConserves(queue, fill, w);
    TimesSplit(w(fill), fill.quantity - c.remaining, c.remaining);
    LotsConcat(c.queue, [Lot(fill, c.remaining)], w);
    assert c.queue + [] == c.queue;
    OneLot(fill, c.remaining, w);
  }

  lemma OneLot(fill: Fill, n: nat, w: Fill -> real)
    ensures TotalOfLots([Lot(fill, n)], w) == Times(w(fill), n)
    ensures Times(w(fill), 0) == 0.0
  {
    assert [Lot(fill, n)][1..] == [];
    assert TotalOfLots([], w) == 0.0;
  }

  lemma {:induction false} MatchesConcat(a: seq<Match>, b: seq<Match>, w: Fill -> real)
    ensures TotalOfMatches(a + b, w) == TotalOfMatches(a, w) + TotalOfMatches(b, w)
  {
    hide Times;
    if b == [] {
      assert a + b == a;
    } else {
      assert (a + b)[..|a + b| - 1] == a + b[..|b| - 1];
      MatchesConcat(a, b[..|b| - 1], w);
    }
  }

  lemma OpenLotsOf(book: Book, key: Key)
    requires OrderOk(book) && key !in book.queues
    ensures OpenLots(book.order + [key], book.queues) == OpenLots(book.order, book.queues)
    ensures forall i, j | 0 <= i < j < |book.order + [key]| :: (book.order + [key])[i] != (book.order + [key])[j]
  {
    assert (book.order + [key])[..|book.order|] == book.order;
    assert OpenLots(book.order, book.queues) + [] == OpenLots(book.order, book.queues);
    assert key !in book.order;
  }

  lemma PostKeepsOrder(book: Book, f: Fill)
    requires OrderOk(book)
    ensures OrderOk(Post(book, f))
  {
    hide Take;
  }

  lemma TakeCount(queue: seq<Lot>, f: Fill)
    ensures |Take(queue, f).matches| + |Take(queue, f).queue| <= |queue| + 1
  {
    hide CloseFront;
    CloseFrontCount(queue, f, f.quantity);
  }

  lemma PostConserves(book: Book, f: Fill, w: Fill -> real)
    requires OrderOk(book)
    ensures var after := Post(book, f);
            var was, now := OpenLots(book.order, book.queues), OpenLots(after.order, after.queues);
            && TotalOfMatches(after.matches, w) + TotalOfLots(now, w)
               == TotalOfMatches(book.matches, w) + TotalOfLots(was, w) + Times(w(f), f.quantity)
            && |after.matches| + |now| <= |book.matches| + |was| + 1
  {
    hide Take, Times, TotalOfLots, OpenLots, TotalOfMatches, CloseFront;
    var key := KeyOf(f);
    var queue := QueueOf(book, key);
    TakeConserves(queue, f, w);
    var step := Take(queue, f);
    TakeCount(queue, f);
    MatchesConcat(book.matches, step.matches, w);
    var order := if key in book.queues then book.order else book.order + [key];
    if key !in book.queues {
      OpenLotsOf(book, key);
      EmptyTotal(w);
    }
    OpenUpdate(order, book.queues, key, step.queue, w);
  }

  /** Whatever a lot carries is conserved over the whole ledger, and matches are never more than fills. */
  lemma {:induction false} LedgerConserves(fills: seq<Fill>, w: Fill -> real)
    ensures var book := PostAll(fills);
            var open := OpenLots(book.order, book.queues);
            && OrderOk(book)
            && TotalOfFills(fills, w) == TotalOfMatches(book.matches, w) + TotalOfLots(open, w)
            && |book.matches| + |open| <= |fills|
  {
    hide Times, Post, OrderOk;
    if fills != [] {
      var earlier, f := fills[..|fills| - 1], fills[|fills| - 1];
      LedgerConserves(earlier, w);
      PostKeepsOrder(PostAll(earlier), f);
      PostConserves(PostAll(earlier), f, w);
    } else {
      EmptyOrder();
    }
  }

  lemma EmptyOrder()
    ensures OrderOk(EMPTY_BOOK)
  {
  }

  lemma EmptyTotal(w: Fill -> real)
    ensures TotalOfLots([], w) == 0.0
  {
  }

  // ---- money ----

  /** Signed cash of one lot of a fill: buying pays, selling receives. */
  function Cash(multipliers: Multipliers, f: Fill): real {
    (if f.side == Buy then -f.price else f.price)
    * (if (f.instrument, f.contract) in multipliers then multipliers[(f.instrument, f.contract)] else 0.0)
  }

  function CashPerLot(multipliers: Multipliers): Fill -> real {
    (f: Fill) => Cash(multipliers, f)
  }

  ghost predicate Paired(m: Match) {
    KeyOf(m.opener) == KeyOf(m.closer) && m.opener.side == Opposite(m.closer.side)
  }

  ghost predicate LotsKeyed(book: Book) {
    forall k, l :: k in book.queues && l in book.queues[k] ==> KeyOf(l.fill) == k
  }

  lemma {:induction false} CloseFrontLots(queue: seq<Lot>, fill: Fill, remaining: nat, key: Key)
    requires forall l | l in queue :: KeyOf(l.fill) == key
    ensures forall l | l in CloseFront(queue, fill, remaining).queue :: KeyOf(l.fill) == key
    decreases |queue|
  {
    if remaining > 0 && queue != [] && queue[0].fill.side != fill.side {
      assert queue[0] in queue;
      CloseFrontLots(queue[1..], fill, remaining - Min(remaining, queue[0].remaining), key);
    }
  }

  /** Every match pairs opposite sides of one key. */
  lemma {:induction false} MatchesArePaired(fills: seq<Fill>)
    ensures LotsKeyed(PostAll(fills)) && forall m | m in PostAll(fills).matches :: Paired(m)
  {
    if fills != [] {
      MatchesArePaired(fills[..|fills| - 1]);
      var book, f := PostAll(fills[..|fills| - 1]), fills[|fills| - 1];
      var queue := QueueOf(book, KeyOf(f));
      CloserIsFill(queue, f, f.quantity);
      CloseFrontLots(queue, f, f.quantity, KeyOf(f));
    }
  }

  lemma GrossIsCash(m: Match, multipliers: Multipliers)
    requires Paired(m)
    ensures ExactGross(m, MultiplierOf(multipliers, m))
         == Times(Cash(multipliers, m.opener), m.quantity) + Times(Cash(multipliers, m.closer), m.quantity)
  {
    var mult, q := MultiplierOf(multipliers, m), m.quantity as real;
    var po, pc := m.opener.price, m.closer.price;
    if m.opener.side == Buy {
      Distribute(pc, po, mult, q);
    } else {
      Distribute(po, pc, mult, q);
      assert (pc - po) * -1.0 == po - pc;
    }
  }

  lemma Distribute(a: real, b: real, mult: real, q: real)
    ensures (a - b) * 1.0 * mult * q == (-b * mult) * q + (a * mult) * q
  {
    assert (a - b) * mult == a * mult + -b * mult;
  }

  function SumGross(matches: seq<Match>, multipliers: Multipliers): real {
    if matches == [] then 0.0 else
    SumGross(matches[..|matches| - 1], multipliers)
    + ExactGross(matches[|matches| - 1], MultiplierOf(multipliers, matches[|matches| - 1]))
  }

  lemma {:induction false} SumGrossIsCash(matches: seq<Match>, multipliers: Multipliers)
    requires forall m | m in matches :: Paired(m)
    ensures SumGross(matches, multipliers) == TotalOfMatches(matches, CashPerLot(multipliers))
  {
    hide ExactGross, Times, Cash, MultiplierOf;
    if matches != [] {
      SumGrossIsCash(matches[..|matches| - 1], multipliers);
      assert matches[|matches| - 1] in matches;
      GrossIsCash(matches[|matches| - 1], multipliers);
    }
  }

  /** The cash identity: what the fills paid and received is the exact realized gross plus the cash still
      tied up in open lots, that is, minus their signed cost. */
  lemma CashIdentity(fills: seq<Fill>, multipliers: Multipliers)
    ensures var book := PostAll(fills);
            var cash := CashPerLot(multipliers);
            TotalOfFills(fills, cash)
              == SumGross(book.matches, multipliers) + TotalOfLots(OpenLots(book.order, book.queues), cash)
  {
    hide PostAll, SumGross, TotalOfMatches, TotalOfLots, OpenLots, TotalOfFills;
    MatchesArePaired(fills);
    SumGrossIsCash(PostAll(fills).matches, multipliers);
    LedgerConserves(fills, CashPerLot(multipliers));
  }

  function SumFees(matches: seq<Match>): real {
    if matches == [] then 0.0 else SumFees(matches[..|matches| - 1]) + ExactFees(matches[|matches| - 1])
  }

  function Commissions(fills: seq<Fill>): real {
    if fills == [] then 0.0 else
    Commissions(fills[..|fills| - 1])
        + (if fills[|fills| - 1].commission.Some? then fills[|fills| - 1].commission.value else 0.0)
  }

  lemma {:induction false} FeesAreWeights(matches: seq<Match>)
    ensures SumFees(matches) == TotalOfMatches(matches, (f: Fill) => f.FeePerLot())
  {
    if matches != [] {
      FeesAreWeights(matches[..|matches| - 1]);
    }
  }

  lemma {:induction false} CommissionsAreWeights(fills: seq<Fill>)
    ensures Commissions(fills) == TotalOfFills(fills, (f: Fill) => f.FeePerLot())
  {
    if fills != [] {
      CommissionsAreWeights(fills[..|fills| - 1]);
      var f := fills[|fills| - 1];
      var c, q := if f.commission.Some? then f.commission.value else 0.0, f.quantity as real;
      assert c / q * q == c;
    }
  }

  /** Every commission is split, without loss, over the lots of its fill. */
  lemma FeesConserved(fills: seq<Fill>)
    ensures var book := PostAll(fills);
            Commissions(fills) == SumFees(book.matches)
                + TotalOfLots(OpenLots(book.order, book.queues), (f: Fill) => f.FeePerLot())
  {
    hide PostAll, TotalOfMatches, TotalOfLots, OpenLots, TotalOfFills, SumFees;
    FeesAreWeights(PostAll(fills).matches);
    CommissionsAreWeights(fills);
    LedgerConserves(fills, (f: Fill) => f.FeePerLot());
  }

  /** A rounded amount is whole and at most half a unit away; a tie goes away from zero. */
  lemma RoundsToNearest(x: real)
    ensures MoneyRound(x).Floor as real == MoneyRound(x)
    ensures Abs(MoneyRound(x) - x) <= 0.5
    ensures Abs(MoneyRound(x) - x) == 0.5 ==> Abs(MoneyRound(x)) > Abs(x)
  {
    var y := if x >= 0.0 then x else -x;
    var n := (y + 0.5).Floor;
    assert n as real <= y + 0.5 < n as real + 1.0;
    assert MoneyRound(x) == if x >= 0.0 then n as real else -(n as real);
    hide MoneyRound;
    assert (n as real).Floor == n && (-(n as real)).Floor == -n;
  }

  function SumTrades(trades: seq<RealizedTrade>): real {
    if trades == [] then 0.0 else SumTrades(trades[..|trades| - 1]) + trades[|trades| - 1].gross
  }

  /** Rounding each match costs at most half a unit per match. */
  lemma {:induction false} RoundingBound(matches: seq<Match>, multipliers: Multipliers)
    ensures Abs(SumTrades(RealizeAll(matches, multipliers)) - SumGross(matches, multipliers)) <= 0.5 * |matches| as real
  {
    hide ExactGross, ExactFees, ExactTaxes, MoneyRound, MultiplierOf;
    if matches != [] {
      var n := |matches| - 1;
      RoundingBound(matches[..n], multipliers);
      assert RealizeAll(matches, multipliers)[..n] == RealizeAll(matches[..n], multipliers);
      RoundsToNearest(ExactGross(matches[n], MultiplierOf(multipliers, matches[n])));
    }
  }

  // ---- the order of the input ----

  lemma {:induction false} LexTotal(a: string, b: string)
    ensures LexLe(a, b) || LexLe(b, a)
    ensures LexLe(a, b) && LexLe(b, a) ==> a == b
  {
    if a != [] && b != [] && a[0] == b[0] {
      LexTotal(a[1..], b[1..]);
      if LexLe(a, b) && LexLe(b, a) {
        assert a == [a[0]] + a[1..] && b == [b[0]] + b[1..];
      }
    }
  }

  lemma {:induction false} LexTransitive(a: string, b: string, c: string)
    requires LexLe(a, b) && LexLe(b, c)
    ensures LexLe(a, c)
  {
    if a != [] && b != [] && c != [] && a[0] == b[0] == c[0] {
      LexTransitive(a[1..], b[1..], c[1..]);
    }
  }

  ghost predicate InOrder(fills: seq<Fill>) {
    forall i, j | 0 <= i < j < |fills| :: Comes(fills[i], fills[j])
  }

  lemma {:induction false} InsertKeepsOrder(f: Fill, sorted: seq<Fill>)
    requires InOrder(sorted)
    ensures InOrder(Insert(f, sorted)) && multiset(Insert(f, sorted)) == multiset(sorted) + multiset{f}
  {
    hide LexLe;
    if sorted == [] {
    } else if !Comes(sorted[0], f) {
      LexTotal(sorted[0].id, f.id);
      forall j | 0 <= j < |sorted| ensures Comes(f, sorted[j]) {
        if j > 0 {
          assert Comes(sorted[0], sorted[j]);
          ComesTransitive(f, sorted[0], sorted[j]);
        }
      }
      assert multiset([f] + sorted) == multiset{f} + multiset(sorted);
    } else {
      var tail := sorted[1..];
      InsertKeepsOrder(f, tail);
      assert sorted == [sorted[0]] + tail;
      var rest := Insert(f, tail);
      hide Insert;
      forall j | 0 <= j < |rest| ensures Comes(sorted[0], rest[j]) {
        assert rest[j] in multiset(rest);
        if rest[j] != f {
          assert rest[j] in tail;
        }
      }
    }
  }

  lemma ComesTransitive(a: Fill, b: Fill, c: Fill)
    requires Comes(a, b) && Comes(b, c)
    ensures Comes(a, c)
  {
    if LexLe(a.id, b.id) && LexLe(b.id, c.id) {
      LexTransitive(a.id, b.id, c.id);
    }
  }

  /** The pass runs over the same fills, in time order with ties by id. */
  lemma {:induction false} SortSorts(fills: seq<Fill>)
    ensures InOrder(Sort(fills)) && multiset(Sort(fills)) == multiset(fills)
  {
    if fills != [] {
      SortSorts(fills[..|fills| - 1]);
      InsertKeepsOrder(fills[|fills| - 1], Sort(fills[..|fills| - 1]));
      assert fills == fills[..|fills| - 1] + [fills[|fills| - 1]];
    }
  }

  ghost predicate DistinctIds(fills: seq<Fill>) {
    forall f, g | f in fills && g in fills && f.id == g.id :: f == g
  }

  /** One order only, once ids tell fills apart. */
  lemma {:induction false} OneOrder(a: seq<Fill>, b: seq<Fill>)
    requires InOrder(a) && InOrder(b) && multiset(a) == multiset(b) && DistinctIds(a)
    ensures a == b
  {
    if a == [] {
      assert |b| == |multiset(b)| == 0;
    } else {
      assert |a| == |multiset(a)| == |multiset(b)| == |b|;
      assert a[0] in multiset(b) && b[0] in multiset(a);
      SameFirst(a, b);
      RestOf(a);
      RestOf(b);
      hide InOrder, DistinctIds;
      OneOrder(a[1..], b[1..]);
    }
  }

  lemma RestOf(a: seq<Fill>)
    requires a != []
    ensures a == [a[0]] + a[1..] && multiset(a[1..]) == multiset(a) - multiset{a[0]}
    ensures InOrder(a) ==> InOrder(a[1..])
    ensures DistinctIds(a) ==> DistinctIds(a[1..])
  {
    hide Comes;
    assert a == [a[0]] + a[1..];
  }

  lemma SameFirst(a: seq<Fill>, b: seq<Fill>)
    requires a != [] && b != [] && InOrder(a) && InOrder(b) && DistinctIds(a) && a[0] in b && b[0] in a
    ensures a[0] == b[0]
  {
    hide LexLe;
    LexTotal(a[0].id, b[0].id);
    assert a[0] == b[0] || Comes(b[0], a[0]);
    assert a[0] == b[0] || Comes(a[0], b[0]);
  }

  /** When no two different fills share an id, the result does not depend on the order of the input. */
  lemma InputOrderIsIrrelevant(fills: seq<Fill>, permuted: seq<Fill>)
    requires multiset(fills) == multiset(permuted) && DistinctIds(fills)
    ensures Sort(fills) == Sort(permuted)
  {
    SortSorts(fills);
    SortSorts(permuted);
    forall f, g | f in Sort(fills) && g in Sort(fills) && f.id == g.id ensures f == g {
      assert f in multiset(fills) && g in multiset(fills);
    }
    OneOrder(Sort(fills), Sort(permuted));
  }
}
