/** The reversal service: every handler changes the stored workflows and the in-memory map in place. */
module ReversalScaling {
  import opened Domain
  import opened OrderModel
  import opened ManagerModel
  import opened OrderManagement
  import opened Legs
  import opened ReversalModel

  /** Holds one record and refuses the moves the table does not list. */
  class ReversalWorkflowStateMachine {
    var record: Flow

    constructor (flow: Flow)
      ensures record == flow
    {
      record := flow;
    }

    method Transition(next: Flow) returns (ok: bool)
      modifies this
      ensures ok == CanMove(old(record).state, next.state)
      ensures record == if ok then next else old(record)
    {
      ok := CanMove(record.state, next.state);
      if ok {
        record := next;
      }
    }
  }

  /** `left` counts the persistent effects before the process dies; `alive` is false after that or after an
      exception. */
  class ReversalWorkflowService {
    const manager: OrderManager
    var flows: seq<Flow>
    var tracked: map<nat, nat>

    function Value(): World
      reads this, manager
    {
      World(manager.Value(), flows, tracked)
    }

    constructor (manager: OrderManager)
      ensures this.manager == manager && Value() == World(manager.Value(), [], map[])
    {
      this.manager := manager;
      flows, tracked := [], map[];
    }

    method Store(i: nat, next: Flow, left: nat) returns (rest: nat, alive: bool)
      requires i < |flows| && next.id == flows[i].id
      modifies this
      ensures Ran(Value(), rest, alive) == WriteFlow(old(Value()), i, next, left)
    {
      rest := left;
      var machine := new ReversalWorkflowStateMachine(flows[i]);
      alive := machine.Transition(next);
      if left == 0 {
        alive := false;
      }
      if alive {
        flows := flows[i := machine.record];
        rest := left - 1;
      }
    }

    method Untrack(f: Flow)
      modifies this`tracked
      ensures tracked == Untracked(old(Value()), f)
    {
      if f.closeId.Some? {
        tracked := tracked - {f.closeId.value};
      }
      if f.entryId.Some? {
        tracked := tracked - {f.entryId.value};
      }
    }

    method PauseSafely(i: nat, left: nat) returns (rest: nat, alive: bool)
      requires i < |flows|
      modifies this
      ensures Ran(Value(), rest, alive) == Pause(old(Value()), i, left)
    {
      var f := flows[i].(state := PausedSafe);
      rest, alive := Store(i, f, left);
      if alive {
        Untrack(f);
      }
    }

    method LinkOrder(i: nat, isClose: bool, id: nat, left: nat) returns (rest: nat, alive: bool)
      requires i < |flows|
      modifies this
      ensures Ran(Value(), rest, alive) == Link(old(Value()), i, isClose, id, left)
    {
      var linked := if isClose then flows[i].(state := CloseSubmitted, closeId := Some(id))
                    else flows[i].(state := EntrySubmitted, entryId := Some(id));
      rest, alive := Store(i, linked, left);
      if alive {
        tracked := tracked[id := i];
      }
    }

    method Submit(i: nat, isClose: bool, net: int, raises: bool, now: int, left: nat) returns (rest: nat, alive: bool)
      requires i < |flows| && flows[i].side.Some? && flows[i].startingNet.Some?
      modifies this, manager
      ensures Ran(Value(), rest, alive) == SubmitLeg(old(Value()), i, isClose, net, raises, now, left)
    {
      hide ManagerModel.Submit, WriteFlow;
      var before := manager.Value();
      var result := manager.SubmitOrder(Leg(flows[i], isClose), Env(net, now, raises, left));
      rest := Remaining(before, manager.Value(), left);
      match result {
        case Crashed =>
          rest, alive := 0, false;
        case ActiveWorkflow | ExposureExceeded =>
          rest, alive := PauseSafely(i, rest);
        case BlankReason | NotMxf =>
          alive := false;
        case Existing(id) =>
          rest, alive := LinkOrder(i, isClose, id, rest);
        case Sent(id) =>
          rest, alive := LinkOrder(i, isClose, id, rest);
        case SentUnknown(id) =>
          rest, alive := LinkOrder(i, isClose, id, rest);
      }
    }

    method AdvanceFromStarted(i: nat, a: Answers, left: nat) returns (rest: nat, alive: bool)
      requires i < |flows|
      modifies this, manager
      ensures Ran(Value(), rest, alive) == FromStarted(old(Value()), i, a, left)
    {
      hide FromQueried;
      var f := flows[i];
      manager.trace := manager.trace + [Asked(f.id, a.netAtStart)];
      if a.netAtStart == 0 {
        rest, alive := Store(i, f.(state := Blocked), left);
        if alive {
          Untrack(f);
        }
        return;
      }
      var side := ClosingSide(a.netAtStart);
      rest, alive := Store(i, f.(state := PositionQueried, startingNet := Some(a.netAtStart), side := side), left);
      if alive {
        rest, alive := AdvanceFromQueried(i, a, rest);
      }
    }

    method AdvanceFromQueried(i: nat, a: Answers, left: nat) returns (rest: nat, alive: bool)
      requires i < |flows|
      modifies this, manager
      ensures Ran(Value(), rest, alive) == FromQueried(old(Value()), i, a, left)
    {
      hide SubmitLeg;
      if flows[i].side.None? || flows[i].startingNet.None? {
        return left, false;
      }
      rest, alive := Submit(i, true, a.closeNet, a.raises, a.now, left);
    }

    method AdvanceFromCloseFilled(i: nat, a: Answers, left: nat) returns (rest: nat, alive: bool)
      requires i < |flows|
      modifies this, manager
      ensures Ran(Value(), rest, alive) == FromCloseFilled(old(Value()), i, a, left)
    {
      hide FromFlat, Pause;
      var f := flows[i];
      var active := ActiveFor(manager.orders, f.slot) != [];
      manager.trace := manager.trace + [Queried(f.id, a.netAtFlat, active, a.sessionHealthy, a.dataHealthy)];
      if !FlatNow(a, active) {
        rest, alive := PauseSafely(i, left);
        return;
      }
      rest, alive := Store(i, f.(state := FlatConfirmed), left);
      if alive {
        rest, alive := AdvanceFromFlat(i, a, rest);
      }
    }

    method AdvanceFromFlat(i: nat, a: Answers, left: nat) returns (rest: nat, alive: bool)
      requires i < |flows|
      modifies this, manager
      ensures Ran(Value(), rest, alive) == FromFlat(old(Value()), i, a, left)
    {
      hide SubmitLeg;
      if flows[i].side.None? || flows[i].startingNet.None? {
        return left, false;
      }
      rest, alive := Submit(i, false, a.entryNet, a.raises, a.now, left);
    }

    method AdvanceOne(i: nat, a: Answers, left: nat) returns (rest: nat, alive: bool)
      requires i < |flows|
      modifies this, manager
      ensures Ran(Value(), rest, alive) == Advance(old(Value()), i, a, left)
    {
      hide FromStarted, FromQueried, FromCloseFilled, FromFlat;
      match flows[i].state {
        case Started => rest, alive := AdvanceFromStarted(i, a, left);
        case PositionQueried => rest, alive := AdvanceFromQueried(i, a, left);
        case CloseFilled => rest, alive := AdvanceFromCloseFilled(i, a, left);
        case FlatConfirmed => rest, alive := AdvanceFromFlat(i, a, left);
        case _ => rest, alive := left, true;
      }
    }

    method StartWorkflow(reverse: bool, id: string, trigger: string, slot: Slot, tooClose: bool, a: Answers, left: nat)
                         returns (rest: nat, alive: bool)
      modifies this, manager
      ensures Ran(Value(), rest, alive) == StartReversal(old(Value()), reverse, id, trigger, slot, tooClose, a, left)
    {
      hide Advance;
      if !reverse {
        return left, false;
      }
      if FindTrigger(flows, trigger).Some? {
        return left, true;
      }
      if HasActiveFlow(flows, slot) || left == 0 {
        return left, false;
      }
      var i := |flows|;
      flows := flows + [Flow(id, trigger, slot, Started, None, None, None, None)];
      if tooClose {
        rest, alive := Store(i, flows[i].(state := Blocked), left - 1);
      } else {
        rest, alive := AdvanceOne(i, a, left - 1);
      }
    }

    method CloseFilledByReport(i: nat, a: Answers, left: nat) returns (rest: nat, alive: bool)
      requires i < |flows|
      modifies this, manager
      ensures Ran(Value(), rest, alive) == CloseIsFilled(old(Value()), i, a, left)
    {
      hide Advance;
      rest, alive := Store(i, flows[i].(state := CloseFilled), left);
      if alive {
        rest, alive := AdvanceOne(i, a, rest);
      }
    }

    method EntryFilled(i: nat, left: nat) returns (rest: nat, alive: bool)
      requires i < |flows|
      modifies this
      ensures Ran(Value(), rest, alive) == EntryIsFilled(old(Value()), i, left)
    {
      var f := flows[i].(state := Completed);
      rest, alive := Store(i, f, left);
      if alive {
        Untrack(f);
      }
    }

    method OnOrderStateTransitioned(order: nat, to: Status, a: Answers, left: nat) returns (rest: nat, alive: bool)
      modifies this, manager
      ensures Ran(Value(), rest, alive) == OnTransition(old(Value()), order, to, a, left)
    {
      hide CloseIsFilled, EntryIsFilled, Pause;
      rest, alive := left, true;
      if order !in tracked || tracked[order] >= |flows| || flows[tracked[order]].state == PausedSafe {
        return;
      }
      var i := tracked[order];
      if to == Filled && flows[i].closeId == Some(order) && flows[i].state == CloseSubmitted {
        rest, alive := CloseFilledByReport(i, a, left);
      } else if to == Filled && flows[i].entryId == Some(order) && flows[i].state == EntrySubmitted {
        rest, alive := EntryFilled(i, left);
      } else if to == Cancelled {
        rest, alive := PauseSafely(i, left);
      }
    }

    method OnOrderRequiresManualReview(order: nat, left: nat) returns (rest: nat, alive: bool)
      modifies this
      ensures Ran(Value(), rest, alive) == OnManualReview(old(Value()), order, left)
    {
      hide Pause;
      rest, alive := left, true;
      if order in tracked && tracked[order] < |flows| && flows[tracked[order]].state != PausedSafe {
        rest, alive := PauseSafely(tracked[order], left);
      }
    }

    method ReloadTracked()
      modifies this`tracked
      ensures tracked == Reloaded(flows)
    {
      var rebuilt: map<nat, nat> := map[];
      for i := 0 to |flows|
        invariant rebuilt == Reloaded(flows[..i])
      {
        assert flows[..i + 1][..i] == flows[..i];
        var f := flows[i];
        if !f.Active() || f.state == PausedSafe {
          continue;
        }
        if f.closeId.Some? {
          rebuilt := rebuilt[f.closeId.value := i];
        }
        if f.entryId.Some? {
          rebuilt := rebuilt[f.entryId.value := i];
        }
      }
      assert flows[..|flows|] == flows;
      tracked := rebuilt;
    }

    method ResumeLinkedOrder(i: nat, order: nat, isClose: bool, a: Answers, left: nat) returns (rest: nat, alive: bool)
      requires i < |flows|
      modifies this, manager
      ensures Ran(Value(), rest, alive) == ResumeLinked(old(Value()), i, order, isClose, a, left)
    {
      hide CloseIsFilled, EntryIsFilled, Pause;
      rest, alive := left, true;
      if order >= |manager.orders| {
        rest, alive := PauseSafely(i, left);
        return;
      }
      tracked := tracked[order := i];
      match manager.orders[order].status {
        case Filled =>
          if isClose {
            rest, alive := CloseFilledByReport(i, a, left);
          } else {
            rest, alive := EntryFilled(i, left);
          }
        case Rejected | Unknown | Cancelled =>
          rest, alive := PauseSafely(i, left);
        case _ =>
      }
    }

    method ResumeWorkflow(i: nat, a: Answers, left: nat) returns (rest: nat, alive: bool)
      requires i < |flows|
      modifies this, manager
      ensures Ran(Value(), rest, alive) == ResumeOne(old(Value()), i, a, left)
    {
      hide ResumeLinked, Advance;
      var f := flows[i];
      if !f.Active() || f.state == PausedSafe {
        return left, true;
      }
      if f.state == CloseSubmitted {
        if f.closeId.None? {
          return left, false;
        }
        rest, alive := ResumeLinkedOrder(i, f.closeId.value, true, a, left);
      } else if f.state == EntrySubmitted {
        if f.entryId.None? {
          return left, false;
        }
        rest, alive := ResumeLinkedOrder(i, f.entryId.value, false, a, left);
      } else {
        rest, alive := AdvanceOne(i, a, left);
      }
    }

    method ResumePendingWorkflows(answers: nat -> Answers, left: nat) returns (rest: nat, alive: bool)
      modifies this, manager
      ensures Ran(Value(), rest, alive) == ResumePending(old(Value()), answers, left)
    {
      hide ResumeOne;
      ReloadTracked();
      ghost var reloaded := Value();
      var n := |flows|;
      rest, alive := left, true;
      var i := 0;
      while i < n && alive
        invariant i <= n == |flows| == |reloaded.flows|
        invariant Ran(Value(), rest, alive) == ResumeUpTo(reloaded, i, answers, left)
      {
        rest, alive := ResumeWorkflow(i, answers(i), rest);
        i := i + 1;
      }
      if !alive {
        StoppedStays(reloaded, i, n, answers, left);
      }
    }
  }

  lemma {:induction false} StoppedStays(w: World, n: nat, m: nat, answers: nat -> Answers, left: nat)
    requires n <= m <= |w.flows| && !ResumeUpTo(w, n, answers, left).alive
    ensures ResumeUpTo(w, m, answers, left) == ResumeUpTo(w, n, answers, left)
  {
    hide ResumeOne;
    if n < m {
      StoppedStays(w, n, m - 1, answers, left);
    }
  }
}
