/** What the realized trades say about the fills they were made of, and in which order open lots are listed. */
module LedgerTrades {
  import opened Domain
  import opened FifoModel
  import opened FifoProofs
  import opened LedgerProofs

  // ---- every trade is drawn from two fills ----

  ghost predicate LotsDrawn(queue: seq<Lot>, fills: seq<Fill>) {
    forall l | l in queue :: l.fill in fills && 0 < l.remaining <= l.fill.quantity
  }

  /** An earlier fill closed by a later one, for a quantity both have. */
  ghost predicate Drawn(fills: seq<Fill>, m: Match) {
    exists i, j :: 0 <= i < j < |fills| && Pairs(fills[i], fills[j], m)
  }

  predicate Pairs(opener: Fill, closer: Fill, m: Match) {
    m.opener == opener && m.closer == closer && 0 < m.quantity && m.quantity <= opener.quantity
    && m.quantity <= closer.quantity
  }

  lemma {:induction false} CloseFrontDrawn(queue: seq<Lot>, fill: Fill, remaining: nat, fills: seq<Fill>)
    requires LotsDrawn(queue, fills) && remaining <= fill.quantity
    ensures var c := CloseFront(queue, fill, remaining);
            && LotsDrawn(c.queue, fills) && c.remaining <= remaining
            && forall m | m in c.matches :: m.opener in fills && Pairs(m.opener, fill, m)
    decreases |queue|
  {
    if remaining > 0 && queue != [] && queue[0].fill.side != fill.side {
      assert queue[0] in queue;
      var quantity := Min(remaining, queue[0].remaining);
      assert forall l | l in queue[1..] :: l in queue;
      CloseFrontDrawn(queue[1..], fill, remaining - quantity, fills);
    }
  }

  ghost predicate BookDrawn(fills: seq<Fill>, book: Book) {
    && (forall m | m in book.matches :: Drawn(fills, m))
    && (forall k | k in book.queues :: LotsDrawn(book.queues[k], fills))
  }

  lemma DrawnStays(fills: seq<Fill>, f: Fill, m: Match)
    requires Drawn(fills, m)
    ensures Drawn(fills + [f], m)
  {
    var i, j :| 0 <= i < j < |fills| && Pairs(fills[i], fills[j], m);
    assert (fills + [f])[i] == fills[i] && (fills + [f])[j] == fills[j];
  }

  lemma NewlyDrawn(fills: seq<Fill>, f: Fill, m: Match)
    requires m.opener in fills && Pairs(m.opener, f, m)
    ensures Drawn(fills + [f], m)
  {
    var i :| 0 <= i < |fills| && fills[i] == m.opener;
    assert (fills + [f])[i] == m.opener && (fills + [f])[|fills|] == f;
  }

  lemma TakeDrawn(queue: seq<Lot>, f: Fill, fills: seq<Fill>)
    requires LotsDrawn(queue, fills)
    ensures var step := Take(queue, f);
            && LotsDrawn(step.queue, fills + [f])
            && forall m | m in step.matches :: Drawn(fills + [f], m)
  {
    CloseFrontDrawn(queue, f, f.quantity, fills);
    hide CloseFront, Drawn;
    forall m | m in Take(queue, f).matches ensures Drawn(fills + [f], m) {
      NewlyDrawn(fills, f, m);
    }
  }

  lemma {:induction false} EveryMatchIsDrawn(fills: seq<Fill>)
    ensures BookDrawn(fills, PostAll(fills))
  {
    if fills != [] {
      var n := |fills| - 1;
      var earlier, f := fills[..n], fills[n];
      var book := PostAll(earlier);
      EveryMatchIsDrawn(earlier);
      TakeDrawn(QueueOf(book, KeyOf(f)), f, earlier);
      assert earlier + [f] == fills;
      hide Take, Drawn;
      forall m | m in book.matches ensures Drawn(fills, m) {
        DrawnStays(earlier, f, m);
      }
    }
  }

  // ---- what a trade says ----

  /** Whole, and the nearest such amount. */
  ghost predicate Nearest(amount: real, exact: real) {
    amount.Floor as real == amount && Abs(amount - exact) <= 0.5
  }

  /** What `quantity` of the fill's lots bear of an amount charged for all of them. */
  function ShareOf(charged: Option<real>, f: Fill, quantity: nat): real {
    (if charged.Some? then charged.value else 0.0) / f.quantity as real * quantity as real
  }

  /** The points won on one lot, in money, for all of them. */
  function Worth(open: Fill, close: Fill, multiplier: real, quantity: int): real {
    (if open.side == Buy then close.price - open.price else open.price - close.price) * multiplier * quantity as real
  }

  /** The trade names both fills, opposite sides of one account and contract, on the day of the closing one, and its
      money is theirs, each amount rounded on its own. */
  ghost predicate Describes(t: RealizedTrade, open: Fill, close: Fill, multipliers: Multipliers) {
    && t.openFillId == open.id && t.closeFillId == close.id
    && t.openPrice == open.price && t.closePrice == close.price
    && open.account == close.account && t.instrument == open.instrument == close.instrument
    && t.contract == open.contract == close.contract
    && t.side == open.side == Opposite(close.side) && t.tradingDay == close.tradingDay
    && 0 < t.quantity && t.quantity <= open.quantity && t.quantity <= close.quantity
    && (t.simulation <==> open.simulation && close.simulation)
    && (close.instrument, close.contract) in multipliers
    && t.multiplier == multipliers[(close.instrument, close.contract)] && t.multiplier > 0.0
    && Nearest(t.gross, Worth(open, close, t.multiplier, t.quantity))
    && Nearest(t.commission, ShareOf(open.commission, open, t.quantity) + ShareOf(close.commission, close, t.quantity))
    && Nearest(t.tax, ShareOf(open.tax, open, t.quantity) + ShareOf(close.tax, close, t.quantity))
    && t.net == t.gross - t.commission - t.tax
  }

  lemma RealizeDescribes(m: Match, multipliers: Multipliers)
    requires Paired(m) && Pairs(m.opener, m.closer, m) && Priced(multipliers, m.closer)
    ensures Describes(Realize(m, multipliers), m.opener, m.closer, multipliers)
  {
    hide MoneyRound, Nearest, Worth, ShareOf, ExactGross, ExactFees, ExactTaxes;
    RoundIsNearest(ExactGross(m, MultiplierOf(multipliers, m)));
    RoundIsNearest(ExactFees(m));
    RoundIsNearest(ExactTaxes(m));
    GrossIsWon(m, MultiplierOf(multipliers, m));
    SharesAre(m);
  }

  lemma RoundIsNearest(x: real)
    ensures Nearest(MoneyRound(x), x)
  {
    RoundsToNearest(x);
  }

  lemma SharesAre(m: Match)
    ensures ExactFees(m) == ShareOf(m.opener.commission, m.opener, m.quantity)
                            + ShareOf(m.closer.commission, m.closer, m.quantity)
    ensures ExactTaxes(m) == ShareOf(m.opener.tax, m.opener, m.quantity) + ShareOf(m.closer.tax, m.closer, m.quantity)
  {
    ShareIs(m.opener, m.quantity);
    ShareIs(m.closer, m.quantity);
    hide ShareOf;
  }

  lemma ShareIs(f: Fill, quantity: nat)
    ensures f.FeePerLot() * quantity as real == ShareOf(f.commission, f, quantity)
    ensures f.TaxPerLot() * quantity as real == ShareOf(f.tax, f, quantity)
  {
  }

  lemma GrossIsWon(m: Match, multiplier: real)
    ensures ExactGross(m, multiplier) == Worth(m.opener, m.closer, multiplier, m.quantity)
  {
    var d := m.closer.price - m.opener.price;
    assert d * 1.0 == d && d * -1.0 == -d;
  }

  /** Every trade of a priced ledger describes an earlier fill closed by a later one. */
  lemma TradesDescribeFills(fills: seq<Fill>, multipliers: Multipliers, k: nat)
    requires forall f | f in fills :: Priced(multipliers, f)
    requires k < |PostAll(fills).matches|
    ensures var t := RealizeAll(PostAll(fills).matches, multipliers)[k];
            exists i, j :: 0 <= i < j < |fills| && Describes(t, fills[i], fills[j], multipliers)
  {
    EveryMatchIsDrawn(fills);
    MatchesArePaired(fills);
    var m := PostAll(fills).matches[k];
    hide PostAll, Describes, Realize, Priced;
    assert m in PostAll(fills).matches;
    var i, j :| 0 <= i < j < |fills| && Pairs(fills[i], fills[j], m);
    assert fills[j] in fills;
    RealizeDescribes(m, multipliers);
    assert Describes(Realize(m, multipliers), fills[i], fills[j], multipliers);
  }

  // ---- the books balance, net ----

  function SumTaxes(matches: seq<Match>): real {
    if matches == [] then 0.0 else SumTaxes(matches[..|matches| - 1]) + ExactTaxes(matches[|matches| - 1])
  }

  function Taxes(fills: seq<Fill>): real {
    if fills == [] then 0.0
    else Taxes(fills[..|fills| - 1]) + (if fills[|fills| - 1].tax.Some? then fills[|fills| - 1].tax.value else 0.0)
  }

  lemma {:induction false} TaxesAreWeights(matches: seq<Match>)
    ensures SumTaxes(matches) == TotalOfMatches(matches, (f: Fill) => f.TaxPerLot())
  {
    if matches != [] {
      TaxesAreWeights(matches[..|matches| - 1]);
    }
  }

  lemma {:induction false} ChargesAreWeights(fills: seq<Fill>)
    ensures Taxes(fills) == TotalOfFills(fills, (f: Fill) => f.TaxPerLot())
  {
    if fills != [] {
      ChargesAreWeights(fills[..|fills| - 1]);
      var f := fills[|fills| - 1];
      var c, q := if f.tax.Some? then f.tax.value else 0.0, f.quantity as real;
      assert c / q * q == c;
    }
  }

  /** Every tax is split, without loss, over the lots of its fill. */
  lemma TaxesConserved(fills: seq<Fill>)
    ensures var book := PostAll(fills);
            Taxes(fills) == SumTaxes(book.matches)
                + TotalOfLots(OpenLots(book.order, book.queues), (f: Fill) => f.TaxPerLot())
  {
    hide PostAll, TotalOfMatches, TotalOfLots, OpenLots, TotalOfFills, SumTaxes;
    TaxesAreWeights(PostAll(fills).matches);
    ChargesAreWeights(fills);
    LedgerConserves(fills, (f: Fill) => f.TaxPerLot());
  }

  function SumNet(trades: seq<RealizedTrade>): real {
    if trades == [] then 0.0 else SumNet(trades[..|trades| - 1]) + trades[|trades| - 1].net
  }

  lemma NetOfOne(m: Match, multipliers: Multipliers)
    ensures Abs(Realize(m, multipliers).net
                - (ExactGross(m, MultiplierOf(multipliers, m)) - ExactFees(m) - ExactTaxes(m))) <= 1.5
  {
    RoundsToNearest(ExactGross(m, MultiplierOf(multipliers, m)));
    RoundsToNearest(ExactFees(m));
    RoundsToNearest(ExactTaxes(m));
    hide ExactGross, ExactFees, ExactTaxes, MoneyRound, MultiplierOf;
  }

  lemma {:induction false} NetIsBounded(matches: seq<Match>, multipliers: Multipliers)
    ensures Abs(SumNet(RealizeAll(matches, multipliers))
                - (SumGross(matches, multipliers) - SumFees(matches) - SumTaxes(matches))) <= 1.5 * |matches| as real
  {
    hide ExactGross, ExactFees, ExactTaxes, MultiplierOf, Realize;
    if matches != [] {
      var n := |matches| - 1;
      NetIsBounded(matches[..n], multipliers);
      assert RealizeAll(matches, multipliers)[..n] == RealizeAll(matches[..n], multipliers);
      NetOfOne(matches[n], multipliers);
    }
  }

  /** What the fills paid and received, less what they were charged. */
  function Balance(fills: seq<Fill>, multipliers: Multipliers): real {
    TotalOfFills(fills, CashPerLot(multipliers)) - Commissions(fills) - Taxes(fills)
  }

  /** The part of it that open lots still carry. */
  function Carried(lots: seq<Lot>, multipliers: Multipliers): real {
    TotalOfLots(lots, CashPerLot(multipliers)) - TotalOfLots(lots, (f: Fill) => f.FeePerLot())
    - TotalOfLots(lots, (f: Fill) => f.TaxPerLot())
  }

  /** The books balance: the realized net and what open lots carry are the whole ledger's balance, within one and a
      half units a trade, the price of rounding three amounts. */
  lemma NetBalances(fills: seq<Fill>, multipliers: Multipliers)
    ensures var book := PostAll(fills);
            Abs(SumNet(RealizeAll(book.matches, multipliers)) + Carried(OpenLots(book.order, book.queues), multipliers)
                - Balance(fills, multipliers)) <= 1.5 * |book.matches| as real
  {
    hide PostAll, TotalOfLots, OpenLots, TotalOfFills, SumNet, SumGross, SumFees, SumTaxes, RealizeAll, Commissions,
        Taxes, Priced;
    CashIdentity(fills, multipliers);
    FeesConserved(fills);
    TaxesConserved(fills);
    NetIsBounded(PostAll(fills).matches, multipliers);
  }

  // ---- the order of the open lots ----

  /** How many fills come before the first of this key. */
  function FirstUse(fills: seq<Fill>, key: Key): nat {
    if fills == [] || KeyOf(fills[0]) == key then 0 else 1 + FirstUse(fills[1..], key)
  }

  lemma {:induction false} FirstUseNext(fills: seq<Fill>, f: Fill, key: Key)
    ensures FirstUse(fills, key) <= |fills|
    ensures FirstUse(fills, key) < |fills| ==> FirstUse(fills + [f], key) == FirstUse(fills, key)
    ensures FirstUse(fills, key) == |fills| ==>
              FirstUse(fills + [f], key) == if KeyOf(f) == key then |fills| else |fills| + 1
  {
    if fills == [] {
      assert [f][1..] == [];
    } else {
      assert (fills + [f])[1..] == fills[1..] + [f];
      FirstUseNext(fills[1..], f, key);
    }
  }

  /** Keys are listed by first use, each used key once. */
  ghost predicate ByFirstUse(fills: seq<Fill>, order: seq<Key>) {
    && (forall k :: k in order <==> FirstUse(fills, k) < |fills|)
    && (forall i, j | 0 <= i < j < |order| :: FirstUse(fills, order[i]) < FirstUse(fills, order[j]))
  }

  lemma {:induction false} OrderIsFirstUse(fills: seq<Fill>)
    ensures ByFirstUse(fills, PostAll(fills).order)
  {
    hide ByFirstUse, Post, OrderOk;
    if fills != [] {
      var n := |fills| - 1;
      OrderIsFirstUse(fills[..n]);
      LedgerConserves(fills[..n], (g: Fill) => 0.0);
      PostedOrder(fills);
      OrderGrows(fills[..n], fills[n], PostAll(fills[..n]).order);
      assert fills[..n] + [fills[n]] == fills;
    } else {
      NoneUsed();
    }
  }

  lemma NoneUsed()
    ensures ByFirstUse([], EMPTY_BOOK.order)
  {
  }

  lemma PostedOrder(fills: seq<Fill>)
    requires fills != [] && OrderOk(PostAll(fills[..|fills| - 1]))
    ensures var was, key := PostAll(fills[..|fills| - 1]).order, KeyOf(fills[|fills| - 1]);
            PostAll(fills).order == if key in was then was else was + [key]
  {
    hide Take;
  }

  lemma OrderGrows(fills: seq<Fill>, f: Fill, order: seq<Key>)
    requires ByFirstUse(fills, order)
    ensures ByFirstUse(fills + [f], if KeyOf(f) in order then order else order + [KeyOf(f)])
  {
    hide FirstUse;
    forall k ensures FirstUse(fills, k) < |fills| ==> FirstUse(fills + [f], k) == FirstUse(fills, k)
             ensures FirstUse(fills, k) >= |fills| ==>
                       FirstUse(fills + [f], k) == if KeyOf(f) == k then |fills| else |fills| + 1
    {
      FirstUseNext(fills, f, k);
    }
    assert forall k | k in order :: FirstUse(fills, k) < |fills|;
  }

  lemma {:induction false} LotsGrouped(order: seq<Key>, queues: map<Key, seq<Lot>>, fills: seq<Fill>)
    requires forall i, j | 0 <= i < j < |order| :: FirstUse(fills, order[i]) < FirstUse(fills, order[j])
    requires forall k, l :: k in queues && l in queues[k] ==> KeyOf(l.fill) == k
    ensures forall l | l in OpenLots(order, queues) :: KeyOf(l.fill) in order
    ensures forall p, q | 0 <= p < q < |OpenLots(order, queues)| ::
              FirstUse(fills, KeyOf(OpenLots(order, queues)[p].fill))
                <= FirstUse(fills, KeyOf(OpenLots(order, queues)[q].fill))
  {
    hide FirstUse;
    if order != [] {
      var n := |order| - 1;
      LotsGrouped(order[..n], queues, fills);
      var rest, last := OpenLots(order[..n], queues), if order[n] in queues then queues[order[n]] else [];
      assert OpenLots(order, queues) == rest + last;
      assert forall l | l in rest :: KeyOf(l.fill) in order[..n];
      assert forall k | k in order[..n] :: FirstUse(fills, k) < FirstUse(fills, order[n]);
      assert forall l | l in last :: KeyOf(l.fill) == order[n];
    }
  }

  /** The open lots are listed contract by contract and account by account, in the order of first use. */
  lemma OpenLotsByFirstUse(fills: seq<Fill>, p: nat, q: nat)
    requires var book := PostAll(fills); p < q < |OpenLots(book.order, book.queues)|
    ensures var book := PostAll(fills);
            var lots := OpenLots(book.order, book.queues);
            FirstUse(fills, KeyOf(lots[p].fill)) <= FirstUse(fills, KeyOf(lots[q].fill)) < |fills|
  {
    OrderIsFirstUse(fills);
    MatchesArePaired(fills);
    hide PostAll, OpenLots, FirstUse;
    var book := PostAll(fills);
    LotsGrouped(book.order, book.queues, fills);
    var lots := OpenLots(book.order, book.queues);
    assert lots[q] in lots;
  }

  // ---- ties ----

  /** The first place where two ids differ, or where one ends. */
  predicate FirstDifference(a: string, b: string, i: nat) {
    i <= |a| && i <= |b| && a[..i] == b[..i] && (i < |a| && i < |b| ==> a[i] != b[i])
  }

  /** Fill ids are compared as in a dictionary: by the first character that differs, and a prefix comes first. */
  lemma {:induction false} TiesAreAlphabetical(a: string, b: string, i: nat)
    requires FirstDifference(a, b, i)
    ensures LexLe(a, b) <==> i == |a| || (i < |b| && a[i] < b[i])
  {
    if i > 0 {
      assert a[0] == a[..i][0] && b[0] == b[..i][0];
      assert a[1..][..i - 1] == a[..i][1..] && b[1..][..i - 1] == b[..i][1..];
      TiesAreAlphabetical(a[1..], b[1..], i - 1);
    }
  }
}
