/** How the order book grows under the manager's steps, seen by a workflow that uses it. */
module BookGrowth {
  import opened Domain
  import opened OrderModel
  import opened ManagerModel
  import opened ManagerProofs
  import opened Legs

  ghost predicate Extends(b: Book, c: Book) {
    && BookOk(c) && |b.orders| <= |c.orders| && b.trace <= c.trace
    && (forall i | 0 <= i < |b.orders| :: Later(b.orders[i], c.orders[i]))
  }

  /** Every gateway call `c` has beyond `b` is of this key, side, size and slot. */
  ghost predicate OnlyCalls(b: Book, c: Book, key: string, slot: Slot, side: Side, lots: int) {
    forall j | |b.trace| <= j < |c.trace| && c.trace[j].Called? ::
      c.trace[j].key == key && c.trace[j].slot == slot && c.trace[j].side == side && c.trace[j].lots == lots
  }

  ghost predicate NoCalls(b: Book, c: Book) {
    forall j | |b.trace| <= j < |c.trace| :: !c.trace[j].Called?
  }

  lemma ExtendsItself(b: Book)
    requires BookOk(b)
    ensures Extends(b, b)
  {
  }

  lemma WriteExtends(b: Book, id: nat, r: Intent)
    requires BookOk(b) && id < |b.orders| && Later(b.orders[id], r)
    ensures Extends(b, Write(b, id, r)) && NoCalls(b, Write(b, id, r))
  {
    WriteKeepsOk(b, id, r);
    hide TraceOk;
  }

  /** The effects of sending, up to where it was cut. */
  function SendTrace(id: nat, r: Request, env: Env): seq<Effect> {
    if env.effects == 0 then []
    else if env.effects == 1 then [Wrote(id, Created)]
    else if env.effects == 2 then [Wrote(id, Created), Wrote(id, Submitting)]
    else if !env.raises || env.effects == 3 then
      [Wrote(id, Created), Wrote(id, Submitting), Called(id, r.key, r.slot, r.side, r.lots)]
    else [Wrote(id, Created), Wrote(id, Submitting), Called(id, r.key, r.slot, r.side, r.lots), Wrote(id, Unknown)]
  }

  lemma SendShape(b: Book, r: Request, env: Env)
    ensures var s := Send(b, r, env);
            && s.book.trace == b.trace + SendTrace(|b.orders|, r, env)
            && (if env.effects == 0 then s.book.orders == b.orders
                else |s.book.orders| == |b.orders| + 1 && s.book.orders[..|b.orders|] == b.orders
                      && s.book.orders[|b.orders|].key == r.key)
            && s.result in {Crashed, Sent(|b.orders|), SentUnknown(|b.orders|)}
            && (env.effects == 0 ==> s.result == Crashed)
  {
  }

  lemma SendCalls(b: Book, r: Request, env: Env)
    ensures OnlyCalls(b, Send(b, r, env).book, r.key, r.slot, r.side, r.lots)
  {
    SendShape(b, r, env);
    hide Send;
    var c := Send(b, r, env).book;
    forall j | |b.trace| <= j < |c.trace| && c.trace[j].Called?
      ensures c.trace[j] == Called(|b.orders|, r.key, r.slot, r.side, r.lots)
    {
      assert c.trace[j] == SendTrace(|b.orders|, r, env)[j - |b.trace|];
    }
  }

  lemma SendExtends(b: Book, r: Request, env: Env)
    requires BookOk(b) && 1 <= r.lots <= MAX_LOTS && FindKey(b.orders, r.key) == None && !HasActive(b.orders, r.slot)
    ensures Extends(b, Send(b, r, env).book)
  {
    SendKeepsOk(b, r, env);
    SendShape(b, r, env);
    hide Send, SendTrace;
    var c := Send(b, r, env).book;
    forall i | 0 <= i < |b.orders| ensures Later(b.orders[i], c.orders[i]) {
      RowIsOk(b, i);
      assert c.orders[i] == c.orders[..|b.orders|][i];
    }
    hide BookOk, Later;
  }

  /** A submission calls the gateway, if at all, with its own terms, and any row it returns carries its key. */
  lemma SubmitExtends(b: Book, r: Request, env: Env)
    requires BookOk(b) && 1 <= r.lots <= MAX_LOTS
    ensures var s := Submit(b, r, env);
            && Extends(b, s.book) && OnlyCalls(b, s.book, r.key, r.slot, r.side, r.lots)
            && (s.result.Existing? || s.result.Sent? || s.result.SentUnknown? ==>
                  s.result.id < |s.book.orders| && s.book.orders[s.result.id].key == r.key)
  {
    hide Send, SendTrace, WorstCase, Blank, BookOk, Extends;
    ExtendsItself(b);
    if FindKey(b.orders, r.key).None? && ActiveFor(b.orders, r.slot) == [] {
      SendExtends(b, r, env);
      SendCalls(b, r, env);
      SendShape(b, r, env);
    }
  }

  lemma IncomingExtends(b: Book, id: nat, e: Event)
    requires BookOk(b)
    ensures Extends(b, Incoming(b, id, e)) && NoCalls(b, Incoming(b, id, e))
  {
    hide BookOk, Extends, WeightedAverage;
    ExtendsItself(b);
    if id < |b.orders| {
      RowIsOk(b, id);
      HandleIsLater(b.orders[id], e);
      WriteExtends(b, id, Handle(b.orders[id], e));
      hide Later, NoCalls, Write;
    }
    assert NoCalls(b, b);
  }

  lemma CancelExtends(b: Book, id: nat, env: Env)
    requires BookOk(b)
    ensures Extends(b, Cancel(b, id, env)) && NoCalls(b, Cancel(b, id, env))
  {
    hide BookOk;
    ExtendsItself(b);
    if id < |b.orders| && b.orders[id].status in {Acknowledged, PartiallyFilled} {
      RowIsOk(b, id);
      var r := b.orders[id].(status := CancelPending, updatedAt := env.now);
      WriteExtends(b, id, r);
      NoteKeepsOk(Write(b, id, r), CancelCalled(id));
    }
  }

  lemma TimeOutExtends(b: Book, id: nat, now: int, timeout: int)
    requires BookOk(b)
    ensures Extends(b, TimeOut(b, id, now, timeout)) && NoCalls(b, TimeOut(b, id, now, timeout))
  {
    hide BookOk, Extends;
    ExtendsItself(b);
    if id < |b.orders| && b.orders[id].Active() {
      RowIsOk(b, id);
      UnknownIsLater(b.orders[id], now);
      WriteExtends(b, id, MarkUnknown(b.orders[id], now));
    }
  }

  lemma ReconcileExtends(b: Book, id: nat, reports: seq<Report>, fills: seq<Execution>, now: int)
    requires BookOk(b)
    ensures Extends(b, Reconcile(b, id, reports, fills, now)) && NoCalls(b, Reconcile(b, id, reports, fills, now))
  {
    hide BookOk, Extends, ReplayReports, ReplayFills;
    ExtendsItself(b);
    if id < |b.orders| && b.orders[id].Active() {
      RowIsOk(b, id);
      ReconcileIsLater(b.orders[id], reports, fills, now);
      WriteExtends(b, id, Reconciled(b.orders[id], reports, fills, now));
    }
  }

  /** No position query is made between `b` and `c`. */
  ghost predicate AsksNothing(b: Book, c: Book) {
    b.trace <= c.trace && forall j | |b.trace| <= j < |c.trace| :: !c.trace[j].Queried? && !c.trace[j].Asked?
  }

  lemma SubmitAsksNothing(b: Book, r: Request, env: Env)
    ensures AsksNothing(b, Submit(b, r, env).book)
  {
    SendShape(b, r, env);
    hide Send, Blank, WorstCase, FindKey;
    var c, added := Send(b, r, env).book, SendTrace(|b.orders|, r, env);
    forall j | |b.trace| <= j < |c.trace| ensures !c.trace[j].Queried? && !c.trace[j].Asked? {
      assert c.trace[j] == added[j - |b.trace|];
    }
  }

  lemma StepAsksNothing(b: Book, op: ManagerProofs.Op)
    ensures AsksNothing(b, Step(b, op))
  {
    hide Submit, ReplayReports, ReplayFills, Apply;
    if op.SubmitOp? {
      SubmitAsksNothing(b, op.request, op.env);
    }
  }

  /** Only a submission calls the gateway. */
  lemma StepExtends(b: Book, op: ManagerProofs.Op)
    requires BookOk(b) && WellFormed(op)
    ensures Extends(b, Step(b, op))
    ensures op.SubmitOp? ==> OnlyCalls(b, Step(b, op), op.request.key, op.request.slot, op.request.side,
        op.request.lots)
    ensures !op.SubmitOp? ==> NoCalls(b, Step(b, op))
  {
    hide BookOk, Extends, NoCalls, OnlyCalls, Submit, Incoming, Cancel, TimeOut, Reconcile;
    match op
    case SubmitOp(r, env) => SubmitExtends(b, r, env);
    case IncomingOp(id, e) => IncomingExtends(b, id, e);
    case CancelOp(id, env) => CancelExtends(b, id, env);
    case TimeOutOp(id, now, timeout) => TimeOutExtends(b, id, now, timeout);
    case ReconcileOp(id, reports, fills, now) => ReconcileExtends(b, id, reports, fills, now);
  }

  lemma KeysDiffer(a: string, b: string)
    ensures CloseKey(a) != EntryKey(b)
    ensures CloseKey(a) == CloseKey(b) ==> a == b
    ensures EntryKey(a) == EntryKey(b) ==> a == b
  {
    var x, y := CloseKey(a), EntryKey(b);
    assert x[|x| - 1] == 'e' && y[|y| - 1] == 'y';
    if CloseKey(a) == CloseKey(b) {
      assert a == CloseKey(a)[..|CloseKey(a)| - 6] && b == CloseKey(b)[..|CloseKey(b)| - 6];
    }
    if EntryKey(a) == EntryKey(b) {
      assert a == EntryKey(a)[..|EntryKey(a)| - 6] && b == EntryKey(b)[..|EntryKey(b)| - 6];
    }
  }

  // ---- what a workflow reads off the trace ----

  /** Before position `n` the broker had answered `net` to this workflow. */
  ghost predicate AskedBefore(b: Book, id: string, net: int, n: int) {
    exists k :: 0 <= k < n <= |b.trace| && b.trace[k] == Asked(id, net)
  }

  /** The close leg of `id` was stored as filled at position `k`. */
  ghost predicate FilledAt(b: Book, id: string, k: int) {
    && 0 <= k < |b.trace| && b.trace[k].Wrote? && b.trace[k].status == Filled
    && b.trace[k].id < |b.orders| && b.orders[b.trace[k].id].key == CloseKey(id)
  }

  /** Before position `n` the close leg was stored as filled, and after that a query showed zero lots, no
      live order and healthy channels. */
  ghost predicate ConfirmedFlat(b: Book, id: string, n: int) {
    exists k, m :: 0 <= k < m < n <= |b.trace| && FilledAt(b, id, k) && b.trace[m] == Queried(id, 0, false, true, true)
  }

  lemma AskedStays(b: Book, c: Book, id: string, net: int, n: int)
    requires Extends(b, c) && AskedBefore(b, id, net, n)
    ensures forall n' | n <= n' <= |c.trace| :: AskedBefore(c, id, net, n')
  {
    hide BookOk, Later;
    var k :| 0 <= k < n <= |b.trace| && b.trace[k] == Asked(id, net);
    assert c.trace[k] == b.trace[k];
  }

  lemma ConfirmedStays(b: Book, c: Book, id: string, n: int)
    requires Extends(b, c) && ConfirmedFlat(b, id, n)
    ensures forall n' | n <= n' <= |c.trace| :: ConfirmedFlat(c, id, n')
  {
    hide BookOk;
    var k, m :| 0 <= k < m < n <= |b.trace| && FilledAt(b, id, k) && b.trace[m] == Queried(id, 0, false, true, true);
    assert c.trace[k] == b.trace[k] && c.trace[m] == b.trace[m];
    assert FilledAt(c, id, k);
  }

  /** A note in the trace changes nothing else. */
  lemma NoteExtends(b: Book, e: Effect)
    requires BookOk(b) && !e.Called? && !e.Wrote?
    ensures Extends(b, b.(trace := b.trace + [e])) && NoCalls(b, b.(trace := b.trace + [e]))
  {
    NoteKeepsOk(b, e);
    assert forall i | 0 <= i < |b.orders| :: RowOk(b.orders[i]);
    hide BookOk;
  }

  lemma QueryConfirms(b: Book, id: string, row: nat)
    requires BookOk(b) && row < |b.orders| && b.orders[row].status == Filled && b.orders[row].key == CloseKey(id)
    ensures var c := b.(trace := b.trace + [Queried(id, 0, false, true, true)]); ConfirmedFlat(c, id, |c.trace|)
  {
    var c := b.(trace := b.trace + [Queried(id, 0, false, true, true)]);
    assert Wrote(row, Filled) in b.trace;
    hide BookOk;
    var k :| 0 <= k < |b.trace| && b.trace[k] == Wrote(row, Filled);
    assert c.trace[k] == b.trace[k];
    assert FilledAt(c, id, k);
    assert c.trace[|b.trace|] == Queried(id, 0, false, true, true);
  }

  lemma AnswerIsAsked(b: Book, id: string, net: int)
    ensures var c := b.(trace := b.trace + [Asked(id, net)]); AskedBefore(c, id, net, |c.trace|)
  {
    var c := b.(trace := b.trace + [Asked(id, net)]);
    assert c.trace[|b.trace|] == Asked(id, net);
  }

  // ---- when a submission goes through ----

  /** Nothing stands in the way of this request. */
  ghost predicate Admissible(b: Book, r: Request, net: int) {
    && !Blank(r.reason) && r.slot.instrument == Mxf && FindKey(b.orders, r.key).None? && !HasActive(b.orders, r.slot)
    && WithinCap(WithCandidate(Range(net, net), r.side, r.lots))
  }

  /** What a submission that goes through leaves: one more row, staged, and three effects. */
  function SentBook(b: Book, r: Request, now: int): Book {
    var id := |b.orders|;
    Book(b.orders + [NewIntent(r, now).(status := Submitting)],
         b.trace + [Wrote(id, Created), Wrote(id, Submitting), Called(id, r.key, r.slot, r.side, r.lots)])
  }

  lemma SubmitGoesThrough(b: Book, r: Request, env: Env)
    requires Admissible(b, r, env.net) && env.effects >= 3 && !env.raises
    ensures Submit(b, r, env) == Submission(SentBook(b, r, env.now), Sent(|b.orders|))
  {
    var intent := NewIntent(r, env.now);
    assert ActiveFor(b.orders, r.slot) == [];
    var id := |b.orders|;
    assert (b.orders + [intent])[id := intent.(status := Submitting)] == b.orders + [intent.(status := Submitting)];
    hide Blank, FindKey, HasActive, ActiveFor;
    assert Submit(b, r, env) == Send(b, r, env);
    assert ((b.trace + [Wrote(id, Created)]) + [Wrote(id, Submitting)]) + [Called(id, r.key, r.slot, r.side, r.lots)]
        == SentBook(b, r, env.now).trace;
  }

  lemma SpendsThree(b: Book, r: Request, now: int, left: nat)
    requires left >= 3
    ensures Remaining(b, SentBook(b, r, now), left) == left - 3
  {
  }

  lemma SaysSomething(s: string)
    requires s != [] && !IsSpace(s[0])
    ensures !Blank(s)
  {
    assert s[0] in s;
  }

  /** A close of the whole truthful position, and a two-lot entry from a flat one, are always within the cap. */
  lemma LegsFitTheCap(net: Net)
    requires net != 0
    ensures WithinCap(WithCandidate(Range(net, net), ClosingSide(net).value, Magnitude(net)))
    ensures WithinCap(WithCandidate(Range(0, 0), ClosingSide(net).value, MAX_LOTS))
  {
  }

  /** One execution of the whole quantity fills a live, untouched order. */
  function FilledRow(o: Intent, fill: Execution): Intent {
    o.(status := Filled, filled := o.lots, avg := Some(fill.price), updatedAt := fill.at, lastSeq := Some(fill.seq_))
  }

  lemma OneFillCompletes(b: Book, row: nat, fill: Execution, delivered: int)
    requires row < |b.orders| && b.orders[row].Valid() && b.orders[row].Active()
    requires b.orders[row].filled == 0 && fill.lots == b.orders[row].lots && IsNewSeq(b.orders[row], fill.seq_)
    ensures Incoming(b, row, Executed(fill, delivered))
         == Book(b.orders[row := FilledRow(b.orders[row], fill)], b.trace + [Wrote(row, Filled)])
  {
  }

  lemma PositionAdds(orders: seq<Intent>, o: Intent, slot: Slot, base: int)
    ensures Position(orders + [o], slot, base) == Position(orders, slot, base)
        + (if o.slot == slot then Signed(o.side, o.filled) else 0)
  {
    assert (orders + [o])[..|orders|] == orders;
  }
}
