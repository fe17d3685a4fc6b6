/** The risk supervisor: it owns the flatten workflows, the map of followed orders and its looks at the clock. */
module Risk {
  import opened Domain
  import opened OrderModel
  import opened ManagerModel
  import opened OrderManagement
  import opened Legs
  import opened FlattenModel

  /** Holds one record and refuses the moves the table does not list. */
  class EodFlattenWorkflowStateMachine {
    var record: Flow

    constructor (flow: Flow)
      ensures record == flow
    {
      record := flow;
    }

    method Transition(next: Flow) returns (ok: bool)
      modifies this
      ensures ok == CanMove(old(record).state, next.state)
      ensures record == if ok then next else old(record)
    {
      ok := CanMove(record.state, next.state);
      if ok {
        record := next;
      }
    }
  }

  class RiskSupervisor {
    const manager: OrderManager
    const settings: Settings
    var flows: seq<Flow>
    var tracked: map<nat, nat>
    var inBand: map<Series, bool>
    var lastPrice: map<Series, real>

    function Value(): World
      reads this, manager
    {
      World(manager.Value(), flows, tracked, inBand, lastPrice)
    }

    constructor (manager: OrderManager, settings: Settings)
      ensures this.manager == manager && this.settings == settings
      ensures Value() == World(manager.Value(), [], map[], map[], map[])
    {
      this.manager, this.settings := manager, settings;
      flows, tracked, inBand, lastPrice := [], map[], map[], map[];
    }

    method Store(i: nat, next: Flow, left: nat) returns (rest: nat, alive: bool)
      requires i < |flows| && SameFlow(flows[i], next)
      modifies this
      ensures Ran(Value(), rest, alive) == WriteFlow(old(Value()), i, next, left)
    {
      rest := left;
      var machine := new EodFlattenWorkflowStateMachine(flows[i]);
      alive := machine.Transition(next);
      if left == 0 {
        alive := false;
      }
      if alive {
        flows := flows[i := machine.record];
        rest := left - 1;
      }
    }

    method StoreAndUntrack(i: nat, next: Flow, left: nat) returns (rest: nat, alive: bool)
      requires i < |flows| && SameFlow(flows[i], next)
      modifies this
      ensures Ran(Value(), rest, alive) == WriteAndUntrack(old(Value()), i, next, left)
    {
      rest, alive := Store(i, next, left);
      if alive && next.closeId.Some? {
        tracked := tracked - {next.closeId.value};
      }
    }

    method PauseSafely(i: nat, left: nat) returns (rest: nat, alive: bool)
      requires i < |flows|
      modifies this
      ensures Ran(Value(), rest, alive) == Pause(old(Value()), i, left)
    {
      rest, alive := StoreAndUntrack(i, flows[i].(state := PausedSafe), left);
    }

    method LinkOrder(i: nat, id: nat, left: nat) returns (rest: nat, alive: bool)
      requires i < |flows|
      modifies this
      ensures Ran(Value(), rest, alive) == Link(old(Value()), i, id, left)
    {
      rest, alive := Store(i, flows[i].(state := CloseSubmitted, closeId := Some(id)), left);
      if alive {
        tracked := tracked[id := i];
      }
    }

    method AdvanceFromQueried(i: nat, a: Answers, left: nat) returns (rest: nat, alive: bool)
      requires i < |flows|
      modifies this, manager
      ensures Ran(Value(), rest, alive) == FromQueried(old(Value()), i, a, left)
    {
      hide Submit, Pause, Link;
      var f := flows[i];
      if f.side.None? || f.startingNet.None? {
        return left, false;
      }
      if SeriesOf(f.slot) !in lastPrice {
        rest, alive := PauseSafely(i, left);
        return;
      }
      var before := manager.Value();
      var result := manager.SubmitOrder(Close(f), Env(a.closeNet, a.now, a.raises, left));
      rest := Remaining(before, manager.Value(), left);
      match result {
        case Crashed =>
          rest, alive := 0, false;
        case ActiveWorkflow | ExposureExceeded =>
          rest, alive := PauseSafely(i, rest);
        case BlankReason | NotMxf =>
          alive := false;
        case Existing(id) =>
          rest, alive := LinkOrder(i, id, rest);
        case Sent(id) =>
          rest, alive := LinkOrder(i, id, rest);
        case SentUnknown(id) =>
          rest, alive := LinkOrder(i, id, rest);
      }
    }

    method AdvanceFromStartedOrWaiting(i: nat, a: Answers, left: nat) returns (rest: nat, alive: bool)
      requires i < |flows|
      modifies this, manager
      ensures Ran(Value(), rest, alive) == FromStarted(old(Value()), i, a, left)
    {
      hide FromQueried;
      var f := flows[i];
      if ActiveFor(manager.orders, f.slot) != [] {
        if f.state == WaitingActiveOrders {
          return left, true;
        }
        rest, alive := Store(i, f.(state := WaitingActiveOrders), left);
        return;
      }
      manager.trace := manager.trace + [Asked(f.id, a.net)];
      if a.net == 0 {
        rest, alive := Store(i, f.(state := AlreadyFlat), left);
        return;
      }
      rest, alive := Store(i, f.(state := PositionQueried, startingNet := Some(a.net), side := ClosingSide(a.net)),
          left);
      if alive {
        rest, alive := AdvanceFromQueried(i, a, rest);
      }
    }

    method AdvanceFromCloseFilled(i: nat, a: Answers, left: nat) returns (rest: nat, alive: bool)
      requires i < |flows|
      modifies this, manager
      ensures Ran(Value(), rest, alive) == FromCloseFilled(old(Value()), i, a, left)
    {
      hide Pause, WriteAndUntrack;
      var f := flows[i];
      var active := ActiveFor(manager.orders, f.slot) != [];
      manager.trace := manager.trace + [Queried(f.id, a.netAtFlat, active, a.sessionHealthy, a.dataHealthy)];
      if FlatNow(a, active) {
        rest, alive := StoreAndUntrack(i, f.(state := Completed), left);
      } else {
        rest, alive := PauseSafely(i, left);
      }
    }

    method AdvanceOne(i: nat, a: Answers, left: nat) returns (rest: nat, alive: bool)
      requires i < |flows|
      modifies this, manager
      ensures Ran(Value(), rest, alive) == Advance(old(Value()), i, a, left)
    {
      hide FromStarted, FromQueried, FromCloseFilled;
      match flows[i].state {
        case Started | WaitingActiveOrders => rest, alive := AdvanceFromStartedOrWaiting(i, a, left);
        case PositionQueried => rest, alive := AdvanceFromQueried(i, a, left);
        case CloseFilled => rest, alive := AdvanceFromCloseFilled(i, a, left);
        case _ => rest, alive := left, true;
      }
    }

    method BeginWorkflow(id: string, trigger: Trigger, slot: Slot, a: Answers, left: nat)
                         returns (rest: nat, alive: bool)
      modifies this, manager
      ensures Ran(Value(), rest, alive) == Begin(old(Value()), id, trigger, slot, a, left)
    {
      hide Advance;
      if FindTrigger(flows, trigger).Some? || HasActiveFlow(flows, slot) {
        return left, true;
      }
      if left == 0 {
        return left, false;
      }
      var i := |flows|;
      flows := flows + [NewFlow(id, trigger, slot)];
      rest, alive := AdvanceOne(i, a, left - 1);
    }

    method MaybeTriggerScheduledFlatten(selected: Option<Slot>, id: string, now: int, healthy: bool, a: Answers,
                                        left: nat)
      returns (rest: nat, alive: bool)
      modifies this, manager
      ensures Ran(Value(), rest, alive) == MaybeTrigger(old(Value()), settings, selected, id, now, healthy, a, left)
    {
      hide Begin, InNoEntryBand;
      rest, alive := left, true;
      if selected.None? {
        return;
      }
      var series := SeriesOf(selected.value);
      var within := InNoEntryBand(settings, now);
      var previous := if series in inBand then Some(inBand[series]) else None;
      inBand := inBand[series := within];
      if !within || previous != Some(false) {
        return;
      }
      var trigger := Scheduled(series, DateOf(now));
      if FindTrigger(flows, trigger).Some? || !healthy {
        return;
      }
      rest, alive := BeginWorkflow(id, trigger, selected.value, a, left);
    }

    method TriggerEmergencyFlatten(id: string, token: string, slot: Slot, confirmed: Net, actual: Net, a: Answers,
                                   left: nat)
      returns (rest: nat, alive: bool)
      modifies this, manager
      ensures Ran(Value(), rest, alive) == TriggerEmergency(old(Value()), id, token, slot, confirmed, actual, a, left)
    {
      hide Begin;
      if actual != confirmed || (FindTrigger(flows, Emergency(token)).None? && HasActiveFlow(flows, slot)) {
        return left, false;
      }
      rest, alive := BeginWorkflow(id, Emergency(token), slot, a, left);
    }

    method CloseFilledByReport(i: nat, a: Answers, left: nat) returns (rest: nat, alive: bool)
      requires i < |flows|
      modifies this, manager
      ensures Ran(Value(), rest, alive) == CloseIsFilled(old(Value()), i, a, left)
    {
      hide Advance;
      rest, alive := Store(i, flows[i].(state := CloseFilled), left);
      if alive {
        rest, alive := AdvanceOne(i, a, rest);
      }
    }

    method OnOrderStateTransitioned(order: nat, to: Status, a: Answers, left: nat) returns (rest: nat, alive: bool)
      modifies this, manager
      ensures Ran(Value(), rest, alive) == OnTransition(old(Value()), order, to, a, left)
    {
      hide CloseIsFilled, Pause;
      rest, alive := left, true;
      if order !in tracked || tracked[order] >= |flows| || flows[tracked[order]].state == PausedSafe {
        return;
      }
      if to == Filled {
        rest, alive := CloseFilledByReport(tracked[order], a, left);
      } else if to == Cancelled {
        rest, alive := PauseSafely(tracked[order], left);
      }
    }

    method OnOrderRequiresManualReview(order: nat, left: nat) returns (rest: nat, alive: bool)
      modifies this
      ensures Ran(Value(), rest, alive) == OnManualReview(old(Value()), order, left)
    {
      hide Pause;
      rest, alive := left, true;
      if order in tracked && tracked[order] < |flows| && flows[tracked[order]].state != PausedSafe {
        rest, alive := PauseSafely(tracked[order], left);
      }
    }

    method ReloadTracked()
      modifies this`tracked
      ensures tracked == Reloaded(flows)
    {
      var rebuilt: map<nat, nat> := map[];
      for i := 0 to |flows|
        invariant rebuilt == Reloaded(flows[..i])
      {
        assert flows[..i + 1][..i] == flows[..i];
        if flows[i].Moving() && flows[i].closeId.Some? {
          rebuilt := rebuilt[flows[i].closeId.value := i];
        }
      }
      assert flows[..|flows|] == flows;
      tracked := rebuilt;
    }

    method ResumeLinkedOrder(i: nat, order: nat, a: Answers, left: nat) returns (rest: nat, alive: bool)
      requires i < |flows|
      modifies this, manager
      ensures Ran(Value(), rest, alive) == ResumeLinked(old(Value()), i, order, a, left)
    {
      hide CloseIsFilled, Pause;
      rest, alive := left, true;
      if order >= |manager.orders| {
        rest, alive := PauseSafely(i, left);
        return;
      }
      tracked := tracked[order := i];
      match manager.orders[order].status {
        case Filled =>
          rest, alive := CloseFilledByReport(i, a, left);
        case Rejected | Unknown | Cancelled =>
          rest, alive := PauseSafely(i, left);
        case _ =>
      }
    }

    method ResumeWorkflow(i: nat, a: Answers, left: nat) returns (rest: nat, alive: bool)
      requires i < |flows|
      modifies this, manager
      ensures Ran(Value(), rest, alive) == ResumeOne(old(Value()), i, a, left)
    {
      hide ResumeLinked, Advance;
      var f := flows[i];
      if !f.Moving() {
        return left, true;
      }
      if f.state != CloseSubmitted {
        rest, alive := AdvanceOne(i, a, left);
      } else if f.closeId.None? {
        return left, false;
      } else {
        rest, alive := ResumeLinkedOrder(i, f.closeId.value, a, left);
      }
    }

    method ResumeAll(answers: nat -> Answers, left: nat) returns (rest: nat, alive: bool)
      modifies this, manager
      ensures Ran(Value(), rest, alive) == ResumeUpTo(old(Value()), |old(flows)|, answers, left)
    {
      hide ResumeOne;
      var n := |flows|;
      ghost var w := Value();
      rest, alive := left, true;
      var i := 0;
      while i < n && alive
        invariant i <= n == |flows| == |w.flows|
        invariant Ran(Value(), rest, alive) == ResumeUpTo(w, i, answers, left)
      {
        rest, alive := ResumeWorkflow(i, answers(i), rest);
        i := i + 1;
      }
      if !alive {
        StoppedStays(w, i, n, answers, left);
      }
    }

    method RetireSimulatedSchedules(left: nat) returns (rest: nat, alive: bool)
      modifies this
      ensures Ran(Value(), rest, alive) == RetireSimulated(old(Value()), settings, left)
    {
      rest, alive := left, true;
      if !settings.simulation {
        return;
      }
      hide WriteFlow, Kept;
      var n := |flows|;
      ghost var w := Value();
      var i := 0;
      while i < n && alive
        invariant i <= n == |flows| == |w.flows|
        invariant Ran(Value(), rest, alive) == RetireUpTo(w, i, left)
      {
        if Retirable(flows[i]) {
          rest, alive := Store(i, flows[i].(state := AlreadyFlat), rest);
        }
        i := i + 1;
      }
      if !alive {
        RetiringStops(w, i, n, left);
      }
    }

    method HandleClockTick(t: Tick, left: nat) returns (rest: nat, alive: bool)
      modifies this, manager
      ensures Ran(Value(), rest, alive) == OnClockTick(old(Value()), settings, t, left)
    {
      hide RetireSimulated, ResumeUpTo, MaybeTrigger;
      rest, alive := RetireSimulatedSchedules(left);
      if alive {
        rest, alive := ResumeAll(t.answers, rest);
      }
      if alive && !settings.simulation {
        rest, alive := MaybeTriggerScheduledFlatten(t.selected, t.id, t.now, t.healthy, t.a, rest);
      }
    }

    method HandleSessionReady(t: Tick, left: nat) returns (rest: nat, alive: bool)
      modifies this, manager
      ensures Ran(Value(), rest, alive) == OnSessionReady(old(Value()), settings, t, left)
    {
      hide OnClockTick, Reloaded;
      ReloadTracked();
      rest, alive := HandleClockTick(t, left);
    }

    method HandleBarClosed(series: Series, close: real)
      modifies this
      ensures Value() == OnBarClosed(old(Value()), series, close)
    {
      lastPrice := lastPrice[series := close];
    }

    /** A new process over the stored workflows. */
    method Start(left: nat) returns (rest: nat, alive: bool)
      modifies this
      ensures Ran(Value(), rest, alive) == Restarted(old(Value()), settings, left)
    {
      hide RetireSimulated, Reloaded;
      tracked, inBand, lastPrice := map[], map[], map[];
      rest, alive := RetireSimulatedSchedules(left);
      if alive {
        ReloadTracked();
      }
    }
  }

  lemma {:induction false} StoppedStays(w: World, n: nat, m: nat, answers: nat -> Answers, left: nat)
    requires n <= m <= |w.flows| && !ResumeUpTo(w, n, answers, left).alive
    ensures ResumeUpTo(w, m, answers, left) == ResumeUpTo(w, n, answers, left)
  {
    hide ResumeOne;
    if n < m {
      StoppedStays(w, n, m - 1, answers, left);
    }
  }

  lemma {:induction false} RetiringStops(w: World, n: nat, m: nat, left: nat)
    requires n <= m <= |w.flows| && !RetireUpTo(w, n, left).alive
    ensures RetireUpTo(w, m, left) == RetireUpTo(w, n, left)
  {
    hide WriteFlow;
    if n < m {
      RetiringStops(w, n, m - 1, left);
    }
  }
}
