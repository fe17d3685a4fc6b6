/** What one event does to one order, and what the manager answers, case by case; and the stored history of every
    order over whole runs. */
module OrderBranches {
  import opened Domain
  import opened OrderModel
  import opened OrderProofs
  import opened ManagerModel
  import opened ManagerProofs

  /** The table read by target: what may lead to each status. */
  lemma TransitionsByTarget(from: Status)
    ensures !CanTransition(from, Created) && (CanTransition(from, Submitting) <==> from == Created)
    ensures CanTransition(from, Acknowledged) <==> from in {Created, Submitting, Unknown}
    ensures CanTransition(from, Rejected) <==> CanTransition(from, Acknowledged)
    ensures CanTransition(from, Filled) <==> from in {Acknowledged, PartiallyFilled, CancelPending, Unknown}
    ensures CanTransition(from, PartiallyFilled) <==> CanTransition(from, Filled)
    ensures CanTransition(from, CancelPending) <==> from in {Acknowledged, PartiallyFilled}
    ensures CanTransition(from, Cancelled) <==> !Terminal(from) && from != Created
    ensures CanTransition(from, Unknown) <==> !Terminal(from)
  {
  }

  // ---- the last news decides ----

  /** What an event that is not ignored leaves. */
  ghost predicate News(before: Intent, e: Event, after: Intent) {
    if e.Executed? then
      && after.filled == before.filled + e.fill.lots <= before.lots
      && (after.status == Filled <==> after.Remaining() == 0)
      && (after.status == PartiallyFilled <==> after.Remaining() > 0)
      && after.updatedAt == e.fill.at && after.lastSeq == Some(e.fill.seq_)
    else
      && after.filled == before.filled && after.avg == before.avg
      && (if CanTransition(before.status, e.report.status)
          then after.status == e.report.status && after.updatedAt == e.report.at && after.lastSeq == Some(e.report.seq_)
          else after.status == Unknown && after.updatedAt == e.delivered && after.lastSeq == before.lastSeq)
  }

  predicate Moves(r: Intent, e: Event) {
    && (e.Executed? ==> IsNewSeq(r, e.fill.seq_) && r.filled + e.fill.lots <= r.lots)
    && (e.Reported? ==> IsNewSeq(r, e.report.seq_)) && !Terminal(r.status)
  }

  lemma EventDecides(r: Intent, e: Event)
    requires r.Valid()
    ensures if Moves(r, e) then News(r, e, Handle(r, e)) else Handle(r, e) == r
  {
    hide WeightedAverage;
  }

  /** Over every sequence the record is what the last event that counted left: a later one changed nothing. */
  lemma {:induction false} LastNewsDecides(r: Intent, events: seq<Event>)
    requires r.Valid()
    ensures var after := HandleAll(r, events);
            || (after == r && forall i | 0 <= i < |events| :: !Moves(r, events[i]))
            || exists i :: 0 <= i < |events| && Latest(r, events, i)
  {
    if events != [] {
      var n := |events| - 1;
      var shorter := events[..n];
      var before := HandleAll(r, shorter);
      LastNewsDecides(r, shorter);
      EventDecides(before, events[n]);
      hide Handle, News, Moves, Latest;
      if Moves(before, events[n]) {
        NewestIsLatest(r, events);
      } else if exists i :: 0 <= i < n && Latest(r, shorter, i) {
        var i :| 0 <= i < n && Latest(r, shorter, i);
        StaysLatest(r, shorter, events[n], i);
        assert shorter + [events[n]] == events;
      }
    }
  }

  /** Event `i` counted, and none after it does. */
  ghost predicate Latest(r: Intent, events: seq<Event>, i: nat)
    requires r.Valid() && i < |events|
  {
    Settles(HandleAll(r, events[..i]), events[i], HandleAll(r, events), events[i + 1..])
  }

  ghost predicate Settles(before: Intent, e: Event, after: Intent, later: seq<Event>) {
    Moves(before, e) && News(before, e, after) && forall j | 0 <= j < |later| :: !Moves(after, later[j])
  }

  lemma NewestIsLatest(r: Intent, events: seq<Event>)
    requires r.Valid() && events != []
    requires var n := |events| - 1;
             var before := HandleAll(r, events[..n]);
             Moves(before, events[n]) && News(before, events[n], Handle(before, events[n]))
    ensures Latest(r, events, |events| - 1)
  {
    hide Moves, News, Handle;
  }

  lemma StillSettles(before: Intent, e: Event, after: Intent, later: seq<Event>, last: Event)
    requires Settles(before, e, after, later) && !Moves(after, last)
    ensures Settles(before, e, after, later + [last])
  {
    hide Moves, News;
  }

  lemma HandledSame(r: Intent, events: seq<Event>)
    requires r.Valid() && events != [] && !Moves(HandleAll(r, events[..|events| - 1]), events[|events| - 1])
    ensures HandleAll(r, events) == HandleAll(r, events[..|events| - 1])
  {
    EventDecides(HandleAll(r, events[..|events| - 1]), events[|events| - 1]);
    hide Handle, Moves, News;
  }

  lemma StaysLatest(r: Intent, events: seq<Event>, last: Event, i: nat)
    requires r.Valid() && i < |events| && Latest(r, events, i) && !Moves(HandleAll(r, events), last)
    ensures Latest(r, events + [last], i)
  {
    hide Moves, HandleAll, Settles;
    var all := events + [last];
    assert all[..|all| - 1] == events;
    HandledSame(r, all);
    assert all[..i] == events[..i] && all[i] == events[i] && all[i + 1..] == events[i + 1..] + [last];
    StillSettles(HandleAll(r, events[..i]), events[i], HandleAll(r, events), events[i + 1..], last);
  }

  // ---- what the manager answers ----

  /** With nothing live, the cap is on the position before and after the whole order fills. */
  predicate FitsCap(net: int, side: Side, lots: int) {
    -MAX_LOTS <= net <= MAX_LOTS && -MAX_LOTS <= net + Signed(side, lots) <= MAX_LOTS
  }

  ghost predicate KnownKey(b: Book, key: string) {
    exists i :: 0 <= i < |b.orders| && b.orders[i].key == key
  }

  predicate Accepted(result: Result) {
    result.Crashed? || result.Sent? || result.SentUnknown?
  }

  /** Each answer, exactly, in the order of the checks; only an accepted request changes the book. */
  lemma SubmitDecides(b: Book, r: Request, env: Env)
    requires BookOk(b) && 1 <= r.lots <= MAX_LOTS
    ensures var s := Submit(b, r, env);
            var allowed := !Blank(r.reason) && r.slot.instrument == Mxf;
            var known, live := KnownKey(b, r.key), HasActive(b.orders, r.slot);
            && (s.result == BlankReason <==> Blank(r.reason))
            && (s.result == NotMxf <==> !Blank(r.reason) && r.slot.instrument != Mxf)
            && (s.result.Existing? <==> allowed && known)
            && (s.result.Existing? ==> s.result.id < |b.orders| && b.orders[s.result.id].key == r.key)
            && (s.result == ActiveWorkflow <==> allowed && !known && live)
            && (s.result == ExposureExceeded <==> allowed && !known && !live && !FitsCap(env.net, r.side, r.lots))
            && (Accepted(s.result) <==> allowed && !known && !live && FitsCap(env.net, r.side, r.lots))
            && (s.book != b <==> Accepted(s.result) && env.effects > 0)
  {
    hide Blank, BookOk, Send;
    SendAccepts(b, r, env);
    assert ActiveFor(b.orders, r.slot) == [] <==> !HasActive(b.orders, r.slot);
    hide HasActive;
  }

  lemma SendAccepts(b: Book, r: Request, env: Env)
    ensures Accepted(Send(b, r, env).result)
    ensures Send(b, r, env).book != b <==> env.effects > 0
    ensures env.effects == 0 ==> Send(b, r, env).book == b
  {
    if env.effects > 0 {
      assert |Send(b, r, env).book.orders| == |b.orders| + 1;
    }
  }

  /** How far an accepted submission got before the process died, and what the order's row then says. */
  function StatusReached(env: Env): Status
    requires env.effects > 0
  {
    if env.effects == 1 then Created else if env.raises && env.effects > 3 then Unknown else Submitting
  }

  /** An accepted request leaves one new row with its own terms, nothing filled; the caller hears of it only after the
      gateway call, and of doubt only after the doubt is stored. */
  lemma SubmitStores(b: Book, r: Request, env: Env)
    requires Accepted(Submit(b, r, env).result) && env.effects > 0
    ensures var s := Submit(b, r, env);
            var id := |b.orders|;
            && |s.book.orders| == id + 1 && (forall i | 0 <= i < id :: s.book.orders[i] == b.orders[i])
            && s.book.orders[id] == Intent(r.key, r.workflow, r.slot, r.side, r.lots, StatusReached(env), 0, None, None,
                                           env.now)
            && (s.result == Sent(id) <==> env.effects >= 3 && !env.raises)
            && (s.result == SentUnknown(id) <==> env.effects >= 4 && env.raises)
            && (Called(id, r.key, r.slot, r.side, r.lots) in s.book.trace[|b.trace|..] <==> env.effects >= 3)
  {
    hide Blank, FindKey, ActiveFor, WorstCase, HasActive;
    SendStores(b, r, env);
    hide Send;
  }

  lemma SendStores(b: Book, r: Request, env: Env)
    requires env.effects > 0
    ensures var s := Send(b, r, env);
            var id := |b.orders|;
            && |s.book.orders| == id + 1 && (forall i | 0 <= i < id :: s.book.orders[i] == b.orders[i])
            && s.book.orders[id] == Intent(r.key, r.workflow, r.slot, r.side, r.lots, StatusReached(env), 0, None, None,
                                           env.now)
            && (s.result == Sent(id) <==> env.effects >= 3 && !env.raises)
            && (s.result == SentUnknown(id) <==> env.effects >= 4 && env.raises)
            && (Called(id, r.key, r.slot, r.side, r.lots) in s.book.trace[|b.trace|..] <==> env.effects >= 3)
  {
    var call := Called(|b.orders|, r.key, r.slot, r.side, r.lots);
    var added := Send(b, r, env).book.trace[|b.trace|..];
    if env.effects >= 3 {
      assert added[2] == call;
    } else {
      assert forall e | e in added :: e.Wrote?;
    }
  }

  /** A cancel is stored, then asked for, exactly for an acknowledged or partly filled order. */
  lemma CancelDecides(b: Book, id: nat, env: Env)
    ensures var c := Cancel(b, id, env);
            var may := id < |b.orders| && CanTransition(b.orders[id].status, CancelPending);
            && (c.orders != b.orders || c.trace != b.trace <==> may && env.effects > 0)
            && (c != b ==>
                  && c.orders == b.orders[id := b.orders[id].(status := CancelPending, updatedAt := env.now)]
                  && c.trace == b.trace + [Wrote(id, CancelPending)]
                      + (if env.effects > 1 then [CancelCalled(id)] else []))
  {
    if id < |b.orders| && CanTransition(b.orders[id].status, CancelPending) && env.effects > 0 {
      assert |Cancel(b, id, env).trace| > |b.trace|;
      assert b.trace + [Wrote(id, CancelPending)] + [] == b.trace + [Wrote(id, CancelPending)];
    }
  }

  /** An order is parked for silence exactly when it is live and its last news is older than the timeout. */
  lemma TimeOutDecides(b: Book, id: nat, now: int, timeout: int)
    requires id < |b.orders|
    ensures var c := TimeOut(b, id, now, timeout);
            if !Terminal(b.orders[id].status) && b.orders[id].updatedAt + timeout < now
            then c.orders == b.orders[id := b.orders[id].(status := Unknown, updatedAt := now)]
                 && c.trace == b.trace + [Wrote(id, Unknown)]
            else c == b
  {
  }

  /** An event changes its own row as one order changes, and is written down exactly when it counts. */
  lemma IncomingDecides(b: Book, id: nat, e: Event)
    requires BookOk(b)
    ensures var c := Incoming(b, id, e);
            && (id >= |b.orders| || !Moves(b.orders[id], e) ==> c == b)
            && (id < |b.orders| && Moves(b.orders[id], e) ==>
                  && |c.orders| == |b.orders| && (forall i | 0 <= i < |b.orders| && i != id ::
                      c.orders[i] == b.orders[i])
                  && News(b.orders[id], e, c.orders[id]) && c.trace == b.trace + [Wrote(id, c.orders[id].status)])
  {
    if id < |b.orders| {
      RowIsOk(b, id);
      EventDecides(b.orders[id], e);
    }
    hide BookOk, News, WeightedAverage;
  }

  // ---- the stored history of every order ----

  /** The statuses written for a row, oldest first. */
  function History(trace: seq<Effect>, id: nat): seq<Status> {
    if trace == [] then []
    else
      var last := trace[|trace| - 1];
      History(trace[..|trace| - 1], id) + (if last.Wrote? && last.id == id then [last.status] else [])
  }

  /** Created first, the stored status last, nothing after a terminal one. */
  ghost predicate Lived(history: seq<Status>, status: Status) {
    && history != [] && history[0] == Created && history[|history| - 1] == status
    && forall k | 0 <= k < |history| - 1 :: !Terminal(history[k])
  }

  /** A cancel reaches the gateway only after it was stored. */
  ghost predicate CancelStored(trace: seq<Effect>, j: nat)
    requires j < |trace|
  {
    trace[j].CancelCalled? ==> j > 0 && trace[j - 1] == Wrote(trace[j].id, CancelPending)
  }

  ghost predicate HistoryOk(b: Book) {
    && (forall i | 0 <= i < |b.orders| :: Lived(History(b.trace, i), b.orders[i].status))
    && (forall i: nat | i >= |b.orders| :: History(b.trace, i) == [])
    && (forall j | 0 <= j < |b.trace| :: CancelStored(b.trace, j))
  }

  lemma HistoryNext(trace: seq<Effect>, e: Effect, id: nat)
    ensures History(trace + [e], id) == History(trace, id) + (if e.Wrote? && e.id == id then [e.status] else [])
  {
    assert (trace + [e])[..|trace|] == trace;
  }

  lemma CancelsStay(trace: seq<Effect>, e: Effect)
    requires forall j | 0 <= j < |trace| :: CancelStored(trace, j)
    requires e.CancelCalled? ==> trace != [] && trace[|trace| - 1] == Wrote(e.id, CancelPending)
    ensures forall j | 0 <= j < |trace + [e]| :: CancelStored(trace + [e], j)
  {
    var all := trace + [e];
    forall j | 0 <= j < |all| ensures CancelStored(all, j) {
      if j < |trace| {
        assert CancelStored(trace, j) && all[j] == trace[j];
      }
    }
  }

  lemma WriteLives(b: Book, id: nat, r: Intent)
    requires HistoryOk(b) && id < |b.orders| && !Terminal(b.orders[id].status)
    ensures HistoryOk(Write(b, id, r))
  {
    var c, e := Write(b, id, r), Wrote(id, r.status);
    CancelsStay(b.trace, e);
    hide History, CancelStored;
    forall i: nat ensures i < |c.orders| ==> Lived(History(c.trace, i), c.orders[i].status)
                  ensures i >= |c.orders| ==> History(c.trace, i) == []
    {
      HistoryNext(b.trace, e, i);
    }
  }

  lemma NoteLives(b: Book, e: Effect)
    requires HistoryOk(b) && !e.Wrote?
    requires e.CancelCalled? ==> b.trace != [] && b.trace[|b.trace| - 1] == Wrote(e.id, CancelPending)
    ensures HistoryOk(b.(trace := b.trace + [e]))
  {
    CancelsStay(b.trace, e);
    hide History, CancelStored;
    forall i: nat ensures History(b.trace + [e], i) == History(b.trace, i) {
      HistoryNext(b.trace, e, i);
    }
  }

  lemma SaveLives(b: Book, r: Request, now: int)
    requires HistoryOk(b)
    ensures HistoryOk(Book(b.orders + [NewIntent(r, now)], b.trace + [Wrote(|b.orders|, Created)]))
  {
    var c, e := Book(b.orders + [NewIntent(r, now)], b.trace + [Wrote(|b.orders|, Created)]),
        Wrote(|b.orders|, Created);
    CancelsStay(b.trace, e);
    hide History, CancelStored;
    forall i: nat ensures i < |c.orders| ==> Lived(History(c.trace, i), c.orders[i].status)
                  ensures i >= |c.orders| ==> History(c.trace, i) == []
    {
      HistoryNext(b.trace, e, i);
    }
  }

  lemma SendLives(b: Book, r: Request, env: Env)
    requires HistoryOk(b)
    ensures HistoryOk(Send(b, r, env).book)
  {
    hide HistoryOk;
    if env.effects > 0 {
      var id, intent := |b.orders|, NewIntent(r, env.now);
      SaveLives(b, r, env.now);
      var saved := Book(b.orders + [intent], b.trace + [Wrote(id, Created)]);
      var staging := intent.(status := Submitting);
      WriteLives(saved, id, staging);
      var staged := Write(saved, id, staging);
      var call := Called(id, r.key, r.slot, r.side, r.lots);
      NoteLives(staged, call);
      WriteLives(staged.(trace := staged.trace + [call]), id, MarkUnknown(staging, env.now));
    }
  }

  lemma CancelLives(b: Book, id: nat, env: Env)
    requires HistoryOk(b)
    ensures HistoryOk(Cancel(b, id, env))
  {
    hide HistoryOk;
    if id < |b.orders| && b.orders[id].status in {Acknowledged, PartiallyFilled} {
      var written := Write(b, id, b.orders[id].(status := CancelPending, updatedAt := env.now));
      WriteLives(b, id, b.orders[id].(status := CancelPending, updatedAt := env.now));
      NoteLives(written, CancelCalled(id));
    }
  }

  lemma StepLives(b: Book, op: Op)
    requires BookOk(b) && HistoryOk(b)
    ensures HistoryOk(Step(b, op))
  {
    hide HistoryOk, BookOk, Send, ReplayReports, ReplayFills, Blank, HasActive, WorstCase;
    match op
    case SubmitOp(r, env) => SendLives(b, r, env);
    case IncomingOp(id, e) =>
      IncomingDecides(b, id, e);
      if id < |b.orders| {
        WriteIfLive(b, id, Incoming(b, id, e).orders[id]);
      }
      hide WeightedAverage, News;
    case CancelOp(id, env) => CancelLives(b, id, env);
    case TimeOutOp(id, now, timeout) =>
      if id < |b.orders| {
        WriteIfLive(b, id, MarkUnknown(b.orders[id], now));
      }
    case ReconcileOp(id, reports, fills, now) =>
      if id < |b.orders| && ReplayReports(b.orders[id], reports).record.Valid() {
        WriteIfLive(b, id, Reconciled(b.orders[id], reports, fills, now));
      }
  }

  lemma WriteIfLive(b: Book, id: nat, r: Intent)
    requires HistoryOk(b) && id < |b.orders|
    ensures !Terminal(b.orders[id].status) ==> HistoryOk(Write(b, id, r))
  {
    hide HistoryOk;
    if !Terminal(b.orders[id].status) {
      WriteLives(b, id, r);
    }
  }

  /** In every run, crashes included: each order's stored statuses begin with `Created`, end with the one it has, and
      nothing is ever written after a terminal one; and no cancel is asked for before it is stored. */
  lemma {:induction false} EveryHistoryIsLived(ops: seq<Op>)
    requires forall op | op in ops :: WellFormed(op)
    ensures HistoryOk(Run(ops))
  {
    if ops != [] {
      var earlier := ops[..|ops| - 1];
      assert ops[|ops| - 1] in ops && forall op | op in earlier :: op in ops;
      EveryHistoryIsLived(earlier);
      RunKeepsOk(earlier);
      StepLives(Run(earlier), ops[|ops| - 1]);
      hide Step, BookOk, HistoryOk;
    }
  }
}
