/** What every run of the order manager keeps, crashes included. */
module ManagerProofs {
  import opened Domain
  import opened OrderModel
  import opened ManagerModel

  /** One step of a run. A crash cuts a submission or a cancel short; the table and the trace survive it. */
  datatype Op =
    | SubmitOp(request: Request, env: Env)
    | IncomingOp(id: nat, e: Event)
    | CancelOp(id: nat, env: Env)
    | TimeOutOp(id: nat, now: int, timeout: int)
    | ReconcileOp(id: nat, reports: seq<Report>, fills: seq<Execution>, now: int)

  function Step(b: Book, op: Op): Book {
    match op
    case SubmitOp(r, env) => Submit(b, r, env).book
    case IncomingOp(id, e) => Incoming(b, id, e)
    case CancelOp(id, env) => Cancel(b, id, env)
    case TimeOutOp(id, now, timeout) => TimeOut(b, id, now, timeout)
    case ReconcileOp(id, reports, fills, now) => Reconcile(b, id, reports, fills, now)
  }

  function Run(ops: seq<Op>): Book {
    if ops == [] then Book([], []) else Step(Run(ops[..|ops| - 1]), ops[|ops| - 1])
  }

  /** Quantities are one or two lots. */
  predicate WellFormed(op: Op) {
    op.SubmitOp? ==> 1 <= op.request.lots <= MAX_LOTS
  }

  // ---- how a row may change ----

  /** The same order, later: identity kept, fills only added, never revived. */
  ghost predicate Later(r: Intent, s: Intent) {
    && s.key == r.key && s.workflow == r.workflow && s.slot == r.slot && s.side == r.side && s.lots == r.lots
    && s.Valid() && r.filled <= s.filled
    && (Terminal(r.status) ==> s == r)
    && (s.filled == s.lots ==> s.status == Filled)
  }

  ghost predicate RowOk(r: Intent) {
    r.Valid() && (r.filled == r.lots ==> r.status == Filled)
  }

  lemma HandleIsLater(r: Intent, e: Event)
    requires RowOk(r)
    ensures Later(r, Handle(r, e))
  {
    hide WeightedAverage;
  }

  lemma UnknownIsLater(r: Intent, at: int)
    requires RowOk(r) && r.Active()
    ensures Later(r, MarkUnknown(r, at))
  {
  }

  lemma {:induction false} ReportsAreLater(r: Intent, reports: seq<Report>)
    requires RowOk(r)
    ensures Later(r, ReplayReports(r, reports).record) && RowOk(ReplayReports(r, reports).record)
    ensures !ReplayReports(r, reports).any ==> ReplayReports(r, reports).record == r
  {
    if reports != [] {
      ReportsAreLater(r, reports[..|reports| - 1]);
    }
  }

  lemma {:induction false} FillsAreLater(r: Intent, fills: seq<Execution>)
    requires RowOk(r)
    ensures Later(r, ReplayFills(r, fills).record) && RowOk(ReplayFills(r, fills).record)
    ensures !ReplayFills(r, fills).any ==> ReplayFills(r, fills).record == r
  {
    if fills != [] {
      FillsAreLater(r, fills[..|fills| - 1]);
      HandleIsLater(ReplayFills(r, fills[..|fills| - 1]).record, Executed(fills[|fills| - 1], 0));
      hide WeightedAverage;
    }
  }

  // ---- the invariant ----

  ghost predicate TableOk(orders: seq<Intent>) {
    && (forall i | 0 <= i < |orders| :: RowOk(orders[i]))
    && (forall i, j | 0 <= i < j < |orders| :: orders[i].key != orders[j].key)
    && (forall i, j | 0 <= i < j < |orders| && orders[i].Active() && orders[j].Active() ::
        orders[i].slot != orders[j].slot)
  }

  /** The call of row `id` carries that row's own terms. */
  ghost predicate CallMatches(orders: seq<Intent>, e: Effect) {
    e.Called? ==>
      && e.id < |orders| && orders[e.id].key == e.key && orders[e.id].slot == e.slot
      && orders[e.id].side == e.side && orders[e.id].lots == e.lots
  }

  /** Each gateway call comes right after its intent was stored as `Submitting`, and no row is called twice. */
  ghost predicate TraceOk(orders: seq<Intent>, trace: seq<Effect>) {
    && (forall j | 0 <= j < |trace| :: CallMatches(orders, trace[j]) && (trace[j].Wrote? ==> trace[j].id < |orders|))
    && (forall j | 0 <= j < |trace| && trace[j].Called? :: j > 0 && trace[j - 1] == Wrote(trace[j].id, Submitting))
    && (forall j, k | 0 <= j < k < |trace| && trace[j].Called? && trace[k].Called? :: trace[j].id != trace[k].id)
    && (forall i | 0 <= i < |orders| :: Wrote(i, orders[i].status) in trace)
  }

  ghost predicate BookOk(b: Book) {
    TableOk(b.orders) && TraceOk(b.orders, b.trace)
  }

  lemma WriteKeepsOk(b: Book, id: nat, r: Intent)
    requires BookOk(b) && id < |b.orders| && Later(b.orders[id], r)
    ensures BookOk(Write(b, id, r))
  {
    var after := Write(b, id, r);
    forall i | 0 <= i < |after.orders| ensures Wrote(i, after.orders[i].status) in after.trace {
      if i != id {
        assert Wrote(i, b.orders[i].status) in b.trace;
      }
    }
    forall j | 0 <= j < |after.trace|
      ensures CallMatches(after.orders, after.trace[j])
          && (after.trace[j].Wrote? ==> after.trace[j].id < |after.orders|)
    {
      if j < |b.trace| {
        assert after.trace[j] == b.trace[j];
      }
    }
  }

  lemma NoteKeepsOk(b: Book, e: Effect)
    requires BookOk(b) && !e.Called? && !e.Wrote?
    ensures BookOk(b.(trace := b.trace + [e]))
  {
    var trace := b.trace + [e];
    assert forall j | 0 <= j < |b.trace| :: trace[j] == b.trace[j];
    assert forall x | x in b.trace :: x in trace;
  }

  lemma SaveKeepsTable(orders: seq<Intent>, r: Request, now: int)
    requires TableOk(orders) && 1 <= r.lots <= MAX_LOTS && FindKey(orders, r.key) == None && !HasActive(orders, r.slot)
    ensures TableOk(orders + [NewIntent(r, now)])
  {
    var all := orders + [NewIntent(r, now)];
    assert forall i | 0 <= i < |orders| :: all[i] == orders[i];
    assert forall i | 0 <= i < |orders| && orders[i].Active() :: orders[i].slot != r.slot;
  }

  lemma SaveKeepsOk(b: Book, r: Request, now: int)
    requires BookOk(b) && 1 <= r.lots <= MAX_LOTS && FindKey(b.orders, r.key) == None && !HasActive(b.orders, r.slot)
    ensures BookOk(Book(b.orders + [NewIntent(r, now)], b.trace + [Wrote(|b.orders|, Created)]))
  {
    SaveKeepsTable(b.orders, r, now);
    hide TableOk;
    var orders, trace := b.orders + [NewIntent(r, now)], b.trace + [Wrote(|b.orders|, Created)];
    assert forall i | 0 <= i < |b.orders| :: orders[i] == b.orders[i];
    forall j | 0 <= j < |trace| ensures CallMatches(orders, trace[j]) && (trace[j].Wrote? ==> trace[j].id < |orders|) {
      if j < |b.trace| {
        assert trace[j] == b.trace[j] && CallMatches(b.orders, b.trace[j]);
      }
    }
    forall i | 0 <= i < |orders| ensures Wrote(i, orders[i].status) in trace {
      if i < |b.orders| {
        assert Wrote(i, b.orders[i].status) in b.trace;
      } else {
        assert trace[|b.trace|] == Wrote(i, Created);
      }
    }
  }

  lemma CallKeepsOk(b: Book, id: nat)
    requires BookOk(b) && id < |b.orders| && b.trace != [] && b.trace[|b.trace| - 1] == Wrote(id, Submitting)
    requires forall j | 0 <= j < |b.trace| && b.trace[j].Called? :: b.trace[j].id != id
    ensures var o := b.orders[id]; BookOk(b.(trace := b.trace + [Called(id, o.key, o.slot, o.side, o.lots)]))
  {
    var o := b.orders[id];
    var trace := b.trace + [Called(id, o.key, o.slot, o.side, o.lots)];
    assert forall j | 0 <= j < |b.trace| :: trace[j] == b.trace[j];
    assert forall x | x in b.trace :: x in trace;
  }

  lemma SendKeepsOk(b: Book, r: Request, env: Env)
    requires BookOk(b) && 1 <= r.lots <= MAX_LOTS && FindKey(b.orders, r.key) == None && !HasActive(b.orders, r.slot)
    ensures BookOk(Send(b, r, env).book)
  {
    if env.effects > 0 {
      var id, intent := |b.orders|, NewIntent(r, env.now);
      SaveKeepsOk(b, r, env.now);
      var saved := Book(b.orders + [intent], b.trace + [Wrote(id, Created)]);
      if env.effects > 1 {
        var staging := intent.(status := Submitting);
        WriteKeepsOk(saved, id, staging);
        var staged := Write(saved, id, staging);
        if env.effects > 2 {
          CallKeepsOk(staged, id);
          var called := staged.(trace := staged.trace + [Called(id, r.key, r.slot, r.side, r.lots)]);
          if env.raises && env.effects > 3 {
            UnknownIsLater(staging, env.now);
            WriteKeepsOk(called, id, MarkUnknown(staging, env.now));
          }
        }
      }
    }
  }

  lemma StepKeepsOk(b: Book, op: Op)
    requires BookOk(b) && WellFormed(op)
    ensures BookOk(Step(b, op))
  {
    hide BookOk;
    match op
    case SubmitOp(r, env) =>
      if Submit(b, r, env).book != b {
        SendKeepsOk(b, r, env);
      }
    case IncomingOp(id, e) =>
      if id < |b.orders| {
        RowIsOk(b, id);
        HandleIsLater(b.orders[id], e);
        hide WeightedAverage;
        WriteKeepsOk(b, id, Handle(b.orders[id], e));
      }
    case CancelOp(id, env) =>
      if id < |b.orders| && b.orders[id].status in {Acknowledged, PartiallyFilled} {
        RowIsOk(b, id);
        var written := Write(b, id, b.orders[id].(status := CancelPending, updatedAt := env.now));
        WriteKeepsOk(b, id, b.orders[id].(status := CancelPending, updatedAt := env.now));
        NoteKeepsOk(written, CancelCalled(id));
      }
    case TimeOutOp(id, now, timeout) =>
      if id < |b.orders| && b.orders[id].Active() {
        RowIsOk(b, id);
        UnknownIsLater(b.orders[id], now);
        WriteKeepsOk(b, id, MarkUnknown(b.orders[id], now));
      }
    case ReconcileOp(id, reports, fills, now) =>
      if id < |b.orders| && b.orders[id].Active() {
        RowIsOk(b, id);
        ReconcileIsLater(b.orders[id], reports, fills, now);
        hide ReplayReports, ReplayFills;
        WriteKeepsOk(b, id, Reconciled(b.orders[id], reports, fills, now));
      }
  }

  lemma RowIsOk(b: Book, id: nat)
    requires BookOk(b) && id < |b.orders|
    ensures RowOk(b.orders[id])
  {
  }

  function Reconciled(r: Intent, reports: seq<Report>, fills: seq<Execution>, now: int): Intent
    requires ReplayReports(r, reports).record.Valid()
  {
    var a := ReplayReports(r, reports);
    var c := ReplayFills(a.record, fills);
    if a.any || c.any then c.record else MarkUnknown(c.record, now)
  }

  lemma ReconcileIsLater(r: Intent, reports: seq<Report>, fills: seq<Execution>, now: int)
    requires RowOk(r) && r.Active()
    ensures ReplayReports(r, reports).record.Valid() && Later(r, Reconciled(r, reports, fills, now))
  {
    ReportsAreLater(r, reports);
    FillsAreLater(ReplayReports(r, reports).record, fills);
    hide ReplayReports, ReplayFills;
  }

  lemma {:induction false} RunKeepsOk(ops: seq<Op>)
    requires forall op | op in ops :: WellFormed(op)
    ensures BookOk(Run(ops))
  {
    if ops != [] {
      var earlier := ops[..|ops| - 1];
      assert ops[|ops| - 1] in ops && forall op | op in earlier :: op in ops;
      RunKeepsOk(earlier);
      StepKeepsOk(Run(earlier), ops[|ops| - 1]);
      hide Step, BookOk;
    }
  }

  /** A call of a book that is kept sound carries the key of one row, so it is the only one with that key. */
  lemma OneCallPerKey(b: Book)
    requires BookOk(b)
    ensures forall j, k | 0 <= j < k < |b.trace| && b.trace[j].Called? && b.trace[k].Called? ::
        b.trace[j].key != b.trace[k].key
  {
    forall j, k | 0 <= j < k < |b.trace| && b.trace[j].Called? && b.trace[k].Called?
        ensures b.trace[j].key != b.trace[k].key {
      assert CallMatches(b.orders, b.trace[j]) && CallMatches(b.orders, b.trace[k]);
      var p, q := b.trace[j].id, b.trace[k].id;
      assert p != q;
      assert if p < q then b.orders[p].key != b.orders[q].key else b.orders[q].key != b.orders[p].key;
    }
  }

  /** Over all runs, crashes between any two effects included: an idempotency key reaches the gateway at most
      once, right after its intent was stored as `Submitting`, with the stored terms; and at most one live
      order exists per account and contract. */
  lemma EachKeyIsCalledAtMostOnce(ops: seq<Op>)
    requires forall op | op in ops :: WellFormed(op)
    ensures var b := Run(ops);
            && (forall j, k | 0 <= j < k < |b.trace| && b.trace[j].Called? && b.trace[k].Called? ::
                b.trace[j].key != b.trace[k].key)
            && (forall j | 0 <= j < |b.trace| && b.trace[j].Called? ::
                  j > 0 && StoredBeforeCall(b, j))
            && (forall i, j | 0 <= i < |b.orders| && 0 <= j < |b.orders| && b.orders[i].Active() && b.orders[j].Active()
                              && b.orders[i].slot == b.orders[j].slot :: i == j)
  {
    RunKeepsOk(ops);
    OneCallPerKey(Run(ops));
    hide Run;
  }

  /** The effect before call `j` stored that intent as `Submitting`. */
  ghost predicate StoredBeforeCall(b: Book, j: int)
    requires 0 < j < |b.trace|
  {
    b.trace[j].Called? && b.trace[j - 1] == Wrote(b.trace[j].id, Submitting) && CallMatches(b.orders, b.trace[j])
  }

  // ---- exposure ----

  /** Signed filled lots of one account and contract, on top of what was held before. */
  function Position(orders: seq<Intent>, slot: Slot, base: int): int {
    if orders == [] then base
    else
      var o := orders[|orders| - 1];
      Position(orders[..|orders| - 1], slot, base) + (if o.slot == slot then Signed(o.side, o.filled) else 0)
  }

  /** One fill outcome: how much more each live order of the slot fills. */
  ghost predicate Feasible(orders: seq<Intent>, outcome: seq<int>) {
    |outcome| == |orders|
    && forall i | 0 <= i < |orders| :: 0 <= outcome[i] <= (if orders[i].Active() then orders[i].Remaining() else 0)
  }

  function After(current: int, orders: seq<Intent>, outcome: seq<int>): int
    requires |outcome| == |orders|
  {
    if orders == [] then current
    else After(current, orders[..|orders| - 1], outcome[..|outcome| - 1])
          + Signed(orders[|orders| - 1].side, outcome[|outcome| - 1])
  }

  lemma OutcomeAdds(current: int, orders: seq<Intent>, outcome: seq<int>, x: int)
    requires orders != [] && Feasible(orders[..|orders| - 1], outcome)
    requires 0 <= x <= (if orders[|orders| - 1].Active() then orders[|orders| - 1].Remaining() else 0)
    ensures var all := outcome + [x];
            Feasible(orders, all)
            && After(current, orders, all) == After(current, orders[..|orders| - 1], outcome)
                + Signed(orders[|orders| - 1].side, x)
  {
    var all := outcome + [x];
    assert all[..|all| - 1] == outcome;
  }

  lemma OutcomeDrops(orders: seq<Intent>, outcome: seq<int>)
    requires orders != [] && Feasible(orders, outcome)
    ensures Feasible(orders[..|orders| - 1], outcome[..|outcome| - 1])
    ensures 0 <= outcome[|outcome| - 1] <= (if orders[|orders| - 1].Active() then orders[|orders| - 1].Remaining()
        else 0)
  {
  }

  /** The worst case is exact: its ends and everything between are the positions some outcome reaches. */
  lemma {:induction false} WorstCaseIsExact(current: int, orders: seq<Intent>, n: int)
    requires forall i | 0 <= i < |orders| :: orders[i].Remaining() >= 0
    ensures var r := WorstCase(current, orders);
            r.lo <= n <= r.hi <==> exists outcome :: Feasible(orders, outcome) && After(current, orders, outcome) == n
  {
    var r := WorstCase(current, orders);
    if orders == [] {
      assert Feasible(orders, []) && After(current, orders, []) == current;
    } else {
      var rest, o := orders[..|orders| - 1], orders[|orders| - 1];
      var cap := if o.Active() then o.Remaining() else 0;
      var inner := WorstCase(current, rest);
      if r.lo <= n <= r.hi {
        WorstCaseIsOrdered(current, rest);
        var x := if o.side == Buy then (if n > inner.hi then n - inner.hi else 0)
            else (if n < inner.lo then inner.lo - n else 0);
        WorstCaseIsExact(current, rest, n - Signed(o.side, x));
        var outcome :| Feasible(rest, outcome) && After(current, rest, outcome) == n - Signed(o.side, x);
        OutcomeAdds(current, orders, outcome, x);
      }
      forall outcome | Feasible(orders, outcome) && After(current, orders, outcome) == n ensures r.lo <= n <= r.hi {
        var shorter, x := outcome[..|outcome| - 1], outcome[|outcome| - 1];
        OutcomeDrops(orders, outcome);
        WorstCaseIsExact(current, rest, n - Signed(o.side, x));
        assert Feasible(rest, shorter) && After(current, rest, shorter) == n - Signed(o.side, x);
      }
    }
  }

  lemma {:induction false} WorstCaseIsOrdered(current: int, orders: seq<Intent>)
    ensures WorstCase(current, orders).lo <= current <= WorstCase(current, orders).hi
  {
    if orders != [] {
      WorstCaseIsOrdered(current, orders[..|orders| - 1]);
    }
  }

  /** The range of one slot, filled lots and live orders together. */
  function Exposure(orders: seq<Intent>, slot: Slot, base: int): Range {
    WorstCase(Position(orders, slot, base), ActiveFor(orders, slot))
  }

  /** The same range, order by order. */
  function Folded(orders: seq<Intent>, slot: Slot, base: int): Range {
    if orders == [] then Range(base, base)
    else
      var r, o := Folded(orders[..|orders| - 1], slot, base), orders[|orders| - 1];
      if o.slot != slot then r else Widen(Range(r.lo + Signed(o.side, o.filled), r.hi + Signed(o.side, o.filled)), o)
  }

  lemma {:induction false} WorstCaseShifts(current: int, orders: seq<Intent>, shift: int)
    ensures WorstCase(current + shift, orders)
        == Range(WorstCase(current, orders).lo + shift, WorstCase(current, orders).hi + shift)
  {
    if orders != [] {
      WorstCaseShifts(current, orders[..|orders| - 1], shift);
    }
  }

  lemma WorstCaseAdds(current: int, orders: seq<Intent>, o: Intent)
    ensures WorstCase(current, orders + [o]) == Widen(WorstCase(current, orders), o)
  {
    var all := orders + [o];
    assert all[..|all| - 1] == orders;
  }

  lemma {:induction false} ExposureIsFolded(orders: seq<Intent>, slot: Slot, base: int)
    ensures Exposure(orders, slot, base) == Folded(orders, slot, base)
  {
    if orders != [] {
      var rest, o := orders[..|orders| - 1], orders[|orders| - 1];
      ExposureIsFolded(rest, slot, base);
      var active := ActiveFor(rest, slot);
      assert ActiveFor(orders, slot) == if o.slot == slot && o.Active() then active + [o] else active;
      if o.slot == slot {
        WorstCaseShifts(Position(rest, slot, base), active, Signed(o.side, o.filled));
        WorstCaseAdds(Position(orders, slot, base), active, o);
      }
      assert Exposure(orders, slot, base) == Folded(orders, slot, base) by {
        hide WorstCase, HasActive, ActiveFor;
      }
    }
  }

  /** A later row never widens the range. */
  lemma {:induction false} LaterNarrows(orders: seq<Intent>, slot: Slot, base: int, id: nat, r: Intent)
    requires id < |orders| && Later(orders[id], r) && RowOk(orders[id])
    ensures var was, now := Folded(orders, slot, base), Folded(orders[id := r], slot, base);
            was.lo <= now.lo && now.hi <= was.hi
  {
    var n := |orders| - 1;
    var changed := orders[id := r];
    if id == n {
      assert changed[..n] == orders[..n];
    } else {
      LaterNarrows(orders[..n], slot, base, id, r);
      assert changed[..n] == orders[..n][id := r];
    }
  }

  /** The position lookup of a submission tells the truth. */
  ghost predicate Honest(b: Book, op: Op, base: Slot -> int) {
    op.SubmitOp? ==> op.env.net == Position(b.orders, op.request.slot, base(op.request.slot))
  }

  ghost predicate Capped(b: Book, base: Slot -> int) {
    forall slot :: WithinCap(Folded(b.orders, slot, base(slot)))
  }

  lemma WriteKeepsCapped(b: Book, id: nat, r: Intent, base: Slot -> int)
    requires Capped(b, base) && id < |b.orders| && RowOk(b.orders[id]) && Later(b.orders[id], r)
    ensures Capped(Write(b, id, r), base)
  {
    forall slot ensures WithinCap(Folded(b.orders[id := r], slot, base(slot))) {
      LaterNarrows(b.orders, slot, base(slot), id, r);
      assert WithinCap(Folded(b.orders, slot, base(slot)));
    }
  }

  lemma NewOrderKeepsCapped(orders: seq<Intent>, r: Request, now: int, base: Slot -> int, status: Status)
    requires forall slot :: WithinCap(Folded(orders, slot, base(slot)))
    requires 1 <= r.lots <= MAX_LOTS && ActiveFor(orders, r.slot) == []
    requires WithinCap(WithCandidate(Range(Position(orders, r.slot, base(r.slot)),
        Position(orders, r.slot, base(r.slot))), r.side, r.lots))
    ensures forall slot :: WithinCap(Folded(orders + [NewIntent(r, now).(status := status)], slot, base(slot)))
  {
    var all := orders + [NewIntent(r, now).(status := status)];
    assert all[..|orders|] == orders;
    forall slot ensures WithinCap(Folded(all, slot, base(slot))) {
      assert WithinCap(Folded(orders, slot, base(slot)));
      if slot == r.slot {
        ExposureIsFolded(orders, slot, base(slot));
      }
    }
  }

  lemma SubmitKeepsCapped(b: Book, r: Request, env: Env, base: Slot -> int)
    requires BookOk(b) && Capped(b, base) && 1 <= r.lots <= MAX_LOTS
    requires env.net == Position(b.orders, r.slot, base(r.slot))
    ensures Capped(Submit(b, r, env).book, base)
  {
    var after := Submit(b, r, env).book;
    if after != b {
      assert ActiveFor(b.orders, r.slot) == [] && after == Send(b, r, env).book;
      assert WithinCap(WithCandidate(Range(env.net, env.net), r.side, r.lots));
      var id, intent := |b.orders|, NewIntent(r, env.now);
      assert exists s :: s in {Created, Submitting, Unknown} && after.orders == b.orders + [intent.(status := s)] by {
        var saved := b.orders + [intent];
        assert saved == b.orders + [intent.(status := Created)];
        assert saved[id := intent.(status := Submitting)] == b.orders + [intent.(status := Submitting)];
        assert saved[id := intent.(status := Submitting)][id := intent.(status := Unknown)] == b.orders
            + [intent.(status := Unknown)];
        assert MarkUnknown(intent.(status := Submitting), env.now) == intent.(status := Unknown);
      }
      var s :| s in {Created, Submitting, Unknown} && after.orders == b.orders + [intent.(status := s)];
      NewOrderKeepsCapped(b.orders, r, env.now, base, s);
    }
  }

  lemma StepKeepsCapped(b: Book, op: Op, base: Slot -> int)
    requires BookOk(b) && Capped(b, base) && WellFormed(op) && Honest(b, op, base)
    ensures Capped(Step(b, op), base)
  {
    hide BookOk, Folded;
    match op
    case SubmitOp(r, env) => SubmitKeepsCapped(b, r, env, base);
    case IncomingOp(id, e) =>
      if id < |b.orders| {
        RowIsOk(b, id);
        HandleIsLater(b.orders[id], e);
        hide WeightedAverage;
        WriteKeepsCapped(b, id, Handle(b.orders[id], e), base);
      }
    case CancelOp(id, env) =>
      if id < |b.orders| && b.orders[id].status in {Acknowledged, PartiallyFilled} {
        RowIsOk(b, id);
        WriteKeepsCapped(b, id, b.orders[id].(status := CancelPending, updatedAt := env.now), base);
      }
    case TimeOutOp(id, now, timeout) =>
      if id < |b.orders| && b.orders[id].Active() {
        RowIsOk(b, id);
        WriteKeepsCapped(b, id, MarkUnknown(b.orders[id], now), base);
      }
    case ReconcileOp(id, reports, fills, now) =>
      if id < |b.orders| && b.orders[id].Active() {
        RowIsOk(b, id);
        ReconcileIsLater(b.orders[id], reports, fills, now);
        hide ReplayReports, ReplayFills;
        WriteKeepsCapped(b, id, Reconciled(b.orders[id], reports, fills, now), base);
      }
  }

  /** Every submission of the run asked a truthful lookup. */
  ghost predicate AllHonest(ops: seq<Op>, base: Slot -> int) {
    forall i | 0 <= i < |ops| :: Honest(Run(ops[..i]), ops[i], base)
  }

  lemma {:induction false} RunKeepsCapped(ops: seq<Op>, base: Slot -> int)
    requires forall op | op in ops :: WellFormed(op)
    requires AllHonest(ops, base) && forall slot :: -MAX_LOTS <= base(slot) <= MAX_LOTS
    ensures Capped(Run(ops), base)
  {
    if ops != [] {
      var n := |ops| - 1;
      var earlier := ops[..n];
      assert ops[n] in ops && forall op | op in earlier :: op in ops;
      assert forall i | 0 <= i < n :: earlier[..i] == ops[..i];
      assert AllHonest(earlier, base) by {
        forall i | 0 <= i < n ensures Honest(Run(earlier[..i]), earlier[i], base) {
          assert Honest(Run(ops[..i]), ops[i], base);
        }
      }
      RunKeepsCapped(earlier, base);
      RunKeepsOk(earlier);
      assert Honest(Run(ops[..n]), ops[n], base);
      StepKeepsCapped(Run(earlier), ops[n], base);
      hide Step;
    }
  }

  /** In every run, whatever the live orders of an account and contract still fill, the position stays
      within two lots either way. */
  lemma PositionStaysWithinCap(ops: seq<Op>, base: Slot -> int, slot: Slot, outcome: seq<int>)
    requires forall op | op in ops :: WellFormed(op)
    requires AllHonest(ops, base) && forall s :: -MAX_LOTS <= base(s) <= MAX_LOTS
    requires Feasible(ActiveFor(Run(ops).orders, slot), outcome)
    ensures var orders := Run(ops).orders;
            -MAX_LOTS <= After(Position(orders, slot, base(slot)), ActiveFor(orders, slot), outcome) <= MAX_LOTS
  {
    RunKeepsOk(ops);
    RunKeepsCapped(ops, base);
    var orders := Run(ops).orders;
    hide Run;
    ExposureIsFolded(orders, slot, base(slot));
    assert WithinCap(Folded(orders, slot, base(slot)));
    var active, p := ActiveFor(orders, slot), Position(orders, slot, base(slot));
    ActiveHaveRemaining(orders, slot);
    WorstCaseIsExact(p, active, After(p, active, outcome));
  }

  lemma {:induction false} ActiveHaveRemaining(orders: seq<Intent>, slot: Slot)
    requires forall i | 0 <= i < |orders| :: RowOk(orders[i])
    ensures forall i | 0 <= i < |ActiveFor(orders, slot)| :: ActiveFor(orders, slot)[i].Remaining() >= 0
  {
    if orders != [] {
      ActiveHaveRemaining(orders[..|orders| - 1], slot);
    }
  }
}
