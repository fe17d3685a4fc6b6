/** The order manager: idempotent submission, one live order per account and contract, bounded exposure.
    The repository is a table of intents, addressed by row; the trace records every write and every call
    to the gateway in the order they happen. */
module ManagerModel {
  import opened Domain
  import opened OrderModel

  datatype Effect =
    | Wrote(id: nat, status: Status)
    | Called(id: nat, key: string, slot: Slot, side: Side, lots: int)
    | CancelCalled(id: nat)
    | Asked(asker: string, net: int)
    | Queried(asker: string, lots: int, activeOrders: bool, sessionHealthy: bool, dataHealthy: bool)

  datatype Book = Book(orders: seq<Intent>, trace: seq<Effect>)

  datatype Request = Request(slot: Slot, side: Side, lots: int, key: string, workflow: string, reason: string)

  /** What the surroundings answer: the position lookup, the clock, whether the gateway call raises, and
      after how many effects the process dies, if it does. */
  datatype Env = Env(net: int, now: int, raises: bool, effects: nat)

  datatype Result = Existing(id: nat) | Sent(id: nat) | SentUnknown(id: nat) | BlankReason | NotMxf | ActiveWorkflow
                  | ExposureExceeded | Crashed

  function FindKey(orders: seq<Intent>, key: string): (r: Option<nat>)
    ensures r.Some? ==> r.value < |orders| && orders[r.value].key == key
    ensures r.None? ==> forall i | 0 <= i < |orders| :: orders[i].key != key
  {
    if orders == [] then None
    else if orders[|orders| - 1].key == key then Some(|orders| - 1)
    else FindKey(orders[..|orders| - 1], key)
  }

  predicate HasActive(orders: seq<Intent>, slot: Slot) {
    exists i :: 0 <= i < |orders| && orders[i].slot == slot && orders[i].Active()
  }

  /** What Python strips: ASCII control and separator spaces, and the other Unicode spaces. */
  predicate IsSpace(c: char) {
    var n := c as int;
    || 0x09 <= n <= 0x0D || 0x1C <= n <= 0x20 || n == 0x85 || n == 0xA0 || n == 0x1680
    || 0x2000 <= n <= 0x200A || n in {0x2028, 0x2029, 0x202F, 0x205F, 0x3000}
  }

  /** Blank means nothing but white space. */
  predicate Blank(s: string) {
    forall c | c in s :: IsSpace(c)
  }

  // ---- worst-case exposure ----

  datatype Range = Range(lo: int, hi: int)

  /** A live order can move the position by anything up to its remaining quantity, in its own direction. */
  function Widen(r: Range, o: Intent): Range {
    if !o.Active() || o.Remaining() <= 0 then r
    else if o.side == Buy then r.(hi := r.hi + o.Remaining())
    else r.(lo := r.lo - o.Remaining())
  }

  function WorstCase(current: int, orders: seq<Intent>): Range {
    if orders == [] then Range(current, current)
        else Widen(WorstCase(current, orders[..|orders| - 1]), orders[|orders| - 1])
  }

  function WithCandidate(r: Range, side: Side, lots: int): Range {
    if Signed(side, lots) > 0 then r.(hi := r.hi + Signed(side, lots)) else r.(lo := r.lo + Signed(side, lots))
  }

  predicate WithinCap(r: Range) {
    -MAX_LOTS <= r.lo && r.hi <= MAX_LOTS
  }

  function ActiveFor(orders: seq<Intent>, slot: Slot): (r: seq<Intent>)
    ensures r == [] <==> !HasActive(orders, slot)
  {
    if orders == [] then []
    else
      var last := orders[|orders| - 1];
      ActiveFor(orders[..|orders| - 1], slot) + (if last.slot == slot && last.Active() then [last] else [])
  }

  // ---- operations ----

  function Write(b: Book, id: nat, r: Intent): Book
    requires id < |b.orders|
  {
    Book(b.orders[id := r], b.trace + [Wrote(id, r.status)])
  }

  datatype Submission = Submission(book: Book, result: Result)

  function NewIntent(r: Request, now: int): Intent {
    Intent(r.key, r.workflow, r.slot, r.side, r.lots, Created, 0, None, None, now)
  }

  /** Persist, stage, call, and only then report; the process may die after any of these. */
  function Send(b: Book, r: Request, env: Env): Submission {
    var id, intent := |b.orders|, NewIntent(r, env.now);
    if env.effects == 0 then Submission(b, Crashed) else
    var saved := Book(b.orders + [intent], b.trace + [Wrote(id, Created)]);
    if env.effects == 1 then Submission(saved, Crashed) else
    var staged := Write(saved, id, intent.(status := Submitting));
    if env.effects == 2 then Submission(staged, Crashed) else
    var called := staged.(trace := staged.trace + [Called(id, r.key, r.slot, r.side, r.lots)]);
    if !env.raises then Submission(called, Sent(id)) else
    if env.effects == 3 then Submission(called, Crashed) else
    Submission(Write(called, id, MarkUnknown(staged.orders[id], env.now)), SentUnknown(id))
  }

  function Submit(b: Book, r: Request, env: Env): Submission {
    if Blank(r.reason) then Submission(b, BlankReason)
    else if r.slot.instrument != Mxf then Submission(b, NotMxf)
    else
      var existing := FindKey(b.orders, r.key);
      if existing.Some? then Submission(b, Existing(existing.value))
      else
        var active := ActiveFor(b.orders, r.slot);
        if active != [] then Submission(b, ActiveWorkflow)
        else if !WithinCap(WithCandidate(WorstCase(env.net, active), r.side, r.lots)) then Submission(b,
            ExposureExceeded)
        else Send(b, r, env)
  }

  /** An incoming report or fill for a row; an event for no known row is only logged. */
  function Incoming(b: Book, id: nat, e: Event): Book {
    if id >= |b.orders| || !b.orders[id].Valid() then b
    else
      match Apply(b.orders[id], e)
      case Applied(after) => Write(b, id, after)
      case Ignored => b
      case Illegal => if Terminal(b.orders[id].status) then b else Write(b, id, MarkUnknown(b.orders[id], e.delivered))
  }

  /** A cancel request writes first, then calls the gateway. */
  function Cancel(b: Book, id: nat, env: Env): Book {
    if id >= |b.orders| || b.orders[id].status !in {Acknowledged, PartiallyFilled} || env.effects == 0 then b
    else
      var written := Write(b, id, b.orders[id].(status := CancelPending, updatedAt := env.now));
      if env.effects == 1 then written else written.(trace := written.trace + [CancelCalled(id)])
  }

  /** An order without news for too long is parked. */
  function TimeOut(b: Book, id: nat, now: int, timeout: int): Book {
    if id >= |b.orders| || !b.orders[id].Active() || now - b.orders[id].updatedAt <= timeout then b
    else Write(b, id, MarkUnknown(b.orders[id], now))
  }

  datatype Replayed = Replayed(record: Intent, any: bool)

  function ReplayReports(r: Intent, reports: seq<Report>): Replayed {
    if reports == [] then Replayed(r, false)
    else
      var before := ReplayReports(r, reports[..|reports| - 1]);
      var o := ApplyReport(before.record, reports[|reports| - 1]);
      if o.Applied? then Replayed(o.record, true) else before
  }

  function ReplayFills(r: Intent, fills: seq<Execution>): Replayed
    requires r.Valid()
    ensures ReplayFills(r, fills).record.Valid()
  {
    if fills == [] then Replayed(r, false)
    else
      var before := ReplayFills(r, fills[..|fills| - 1]);
      var o := ApplyFill(before.record, fills[|fills| - 1]);
      if o.Applied? then Replayed(o.record, true) else before
  }

  /** Reconciliation: every queried report of the order by sequence, skipping illegal ones, then every
      queried fill; with nothing new the order is parked. */
  function Reconcile(b: Book, id: nat, reports: seq<Report>, fills: seq<Execution>, now: int): Book {
    if id >= |b.orders| || !b.orders[id].Active() || !b.orders[id].Valid() then b
    else
      var a := ReplayReports(b.orders[id], reports);
      if !a.record.Valid() then b
      else
        var c := ReplayFills(a.record, fills);
        Write(b, id, if a.any || c.any then c.record else MarkUnknown(c.record, now))
  }
}

/** The manager object. */
module OrderManagement {
  import opened Domain
  import opened OrderModel
  import opened OrderMachine
  import opened ManagerModel

  /** The loop over active orders. */
  method WorstCaseNetPositionRange(current: int, active: seq<Intent>) returns (lo: int, hi: int)
    ensures Range(lo, hi) == WorstCase(current, active)
  {
    lo, hi := current, current;
    for i := 0 to |active|
      invariant Range(lo, hi) == WorstCase(current, active[..i])
    {
      assert active[..i + 1][..i] == active[..i];
      var o := active[i];
      if !o.Active() || o.Remaining() <= 0 {
        continue;
      }
      var signed := if o.side == Buy then o.Remaining() else -o.Remaining();
      if signed > 0 {
        hi := hi + signed;
      } else {
        lo := lo + signed;
      }
    }
    assert active[..|active|] == active;
  }

  class OrderManager {
    var orders: seq<Intent>
    var trace: seq<Effect>

    function Value(): Book
      reads this
    {
      Book(orders, trace)
    }

    constructor ()
      ensures Value() == Book([], [])
    {
      orders, trace := [], [];
    }

    method Update(id: nat, r: Intent)
      requires id < |orders|
      modifies this
      ensures Value() == Write(old(Value()), id, r)
    {
      orders := orders[id := r];
      trace := trace + [Wrote(id, r.status)];
    }

    method SubmitOrder(r: Request, env: Env) returns (result: Result)
      modifies this
      ensures Submission(Value(), result) == Submit(old(Value()), r, env)
    {
      if Blank(r.reason) {
        return BlankReason;
      }
      if r.slot.instrument != Mxf {
        return NotMxf;
      }
      var existing := FindKey(orders, r.key);
      if existing.Some? {
        return Existing(existing.value);
      }
      var active := ActiveFor(orders, r.slot);
      if active != [] {
        return ActiveWorkflow;
      }
      var lo, hi := WorstCaseNetPositionRange(env.net, active);
      if !WithinCap(WithCandidate(Range(lo, hi), r.side, r.lots)) {
        return ExposureExceeded;
      }
      result := PersistAndSend(r, env);
    }

    method PersistAndSend(r: Request, env: Env) returns (result: Result)
      modifies this
      ensures Submission(Value(), result) == Send(old(Value()), r, env)
    {
      if env.effects == 0 {
        return Crashed;
      }
      var id := |orders|;
      var intent := NewIntent(r, env.now);
      orders, trace := orders + [intent], trace + [Wrote(id, Created)];
      if env.effects == 1 {
        return Crashed;
      }
      var machine := new OrderStateMachine(intent);
      var _ := machine.Transition(Submitting, env.now);
      Update(id, machine.record);
      if env.effects == 2 {
        return Crashed;
      }
      trace := trace + [Called(id, r.key, r.slot, r.side, r.lots)];
      if !env.raises {
        return Sent(id);
      }
      if env.effects == 3 {
        return Crashed;
      }
      var _ := machine.ToUnknown(env.now);
      Update(id, machine.record);
      result := SentUnknown(id);
    }

    method OnEvent(id: nat, e: Event)
      modifies this
      ensures Value() == Incoming(old(Value()), id, e)
    {
      if id >= |orders| || !orders[id].Valid() {
        return;
      }
      var machine := new OrderStateMachine(orders[id]);
      var o: Outcome;
      match e {
        case Reported(report, _) => o := machine.ApplyOrderReport(report);
        case Executed(fill, _) => o := machine.ApplyExecution(fill);
      }
      if o.Applied? {
        Update(id, machine.record);
      } else if o.Illegal? {
        var ok := machine.ToUnknown(e.delivered);
        if ok {
          Update(id, machine.record);
        }
      }
    }

    method CancelOrder(id: nat, env: Env)
      modifies this
      ensures Value() == Cancel(old(Value()), id, env)
    {
      if id >= |orders| || env.effects == 0 {
        return;
      }
      var machine := new OrderStateMachine(orders[id]);
      var ok := machine.MarkCancelPending(env.now);
      if !ok {
        return;
      }
      Update(id, machine.record);
      if env.effects > 1 {
        trace := trace + [CancelCalled(id)];
      }
    }

    method ReconcileOne(id: nat, reports: seq<Report>, fills: seq<Execution>, now: int)
      modifies this
      ensures Value() == Reconcile(old(Value()), id, reports, fills, now)
    {
      if id >= |orders| || !orders[id].Active() || !orders[id].Valid() {
        return;
      }
      var record := orders[id];
      var machine := new OrderStateMachine(record);
      var any := false;
      for i := 0 to |reports|
        invariant machine.record == ReplayReports(record, reports[..i]).record
            && any == ReplayReports(record, reports[..i]).any
        invariant Value() == old(Value())
      {
        assert reports[..i + 1][..i] == reports[..i];
        var o := machine.ApplyOrderReport(reports[i]);
        any := any || o.Applied?;
      }
      assert reports[..|reports|] == reports;
      if !machine.record.Valid() {
        return;
      }
      var reported := machine.record;
      var filled := false;
      for i := 0 to |fills|
        invariant machine.record == ReplayFills(reported, fills[..i]).record
            && filled == ReplayFills(reported, fills[..i]).any
        invariant Value() == old(Value())
      {
        assert fills[..i + 1][..i] == fills[..i];
        var o := machine.ApplyExecution(fills[i]);
        filled := filled || o.Applied?;
      }
      assert fills[..|fills|] == fills;
      if !any && !filled {
        ReplayNothing(record, reports, fills);
        var _ := machine.ToUnknown(now);
      }
      Update(id, machine.record);
    }

    /** The timeout sweep: park each order that has waited too long, then ask the broker about it. */
    method SweepTimeouts(now: int, timeout: int, answers: nat -> Answer)
      modifies this
      ensures Value() == Sweep(old(Value()), now, timeout, answers, |old(orders)|)
    {
      hide Reconcile;
      var n := |orders|;
      for id := 0 to n
        invariant Value() == Sweep(old(Value()), now, timeout, answers, id) && |orders| == n
      {
        if orders[id].Active() && now - orders[id].updatedAt > timeout {
          var machine := new OrderStateMachine(orders[id]);
          var _ := machine.ToUnknown(now);
          Update(id, machine.record);
          ReconcileOne(id, answers(id).reports, answers(id).fills, now);
          ReconcileKeepsRows(Write(Sweep(old(Value()), now, timeout, answers, id), id, machine.record), id,
                             answers(id).reports, answers(id).fills, now);
        }
      }
    }
  }

  /** The broker's records of one order, as a query returns them. */
  datatype Answer = Answer(reports: seq<Report>, fills: seq<Execution>)

  predicate Overdue(b: Book, id: nat, now: int, timeout: int) {
    id < |b.orders| && b.orders[id].Active() && now - b.orders[id].updatedAt > timeout
  }

  /** The first `n` rows swept. */
  function Sweep(b: Book, now: int, timeout: int, answers: nat -> Answer, n: nat): Book {
    if n == 0 then b
    else
      var before, id := Sweep(b, now, timeout, answers, n - 1), n - 1;
      if Overdue(before, id, now, timeout)
      then Reconcile(TimeOut(before, id, now, timeout), id, answers(id).reports, answers(id).fills, now)
      else before
  }

  lemma ReconcileKeepsRows(b: Book, id: nat, reports: seq<Report>, fills: seq<Execution>, now: int)
    ensures |Reconcile(b, id, reports, fills, now).orders| == |b.orders|
  {
    hide ReplayReports, ReplayFills;
  }

  lemma {:induction false} ReplayNothing(r: Intent, reports: seq<Report>, fills: seq<Execution>)
    requires r.Valid()
    ensures !ReplayReports(r, reports).any ==> ReplayReports(r, reports).record == r
    ensures !ReplayFills(r, fills).any ==> ReplayFills(r, fills).record == r
    decreases |reports| + |fills|
  {
    if reports != [] {
      ReplayNothing(r, reports[..|reports| - 1], []);
    }
    if fills != [] {
      ReplayNothing(r, [], fills[..|fills| - 1]);
    }
  }
}
