/** What the two persisted workflows share: leg keys, and the side and size of a close. */
module Legs {
  import opened Domain
  import opened ManagerModel

  function CloseKey(id: string): string {
    id + ":close"
  }

  function EntryKey(id: string): string {
    id + ":entry"
  }

  /** The side that brings `net` towards zero. */
  function ClosingSide(net: int): Option<Side> {
    if net == 0 then None else Some(if net < 0 then Buy else Sell)
  }

  /** Each entry a submission adds to the trace was one effect. */
  function Remaining(before: Book, after: Book, left: nat): nat {
    var used := |after.trace| - |before.trace|;
    if 0 <= used <= left then left - used else 0
  }
}

/** The reversal workflow: close the position, confirm it is flat, then enter the other way. Every step is
    persisted; the process may die before any write and resume later. */
module ReversalModel {
  import opened Domain
  import opened OrderModel
  import opened ManagerModel
  import opened Legs

  datatype FlowState = Started | PositionQueried | CloseSubmitted | CloseFilled | FlatConfirmed | EntrySubmitted
      | Completed
                     | PausedSafe | Blocked

  predicate CanMove(from: FlowState, to: FlowState) {
    match from
    case Started => to in {PositionQueried, Blocked, PausedSafe}
    case PositionQueried => to in {CloseSubmitted, Blocked, PausedSafe}
    case CloseSubmitted => to in {CloseFilled, PausedSafe}
    case CloseFilled => to in {FlatConfirmed, PausedSafe}
    case FlatConfirmed => to in {EntrySubmitted, PausedSafe}
    case EntrySubmitted => to in {Completed, PausedSafe}
    case Completed | Blocked => false
    case PausedSafe => to == Blocked
  }

  /** `startingNet` is what the broker answered, and both legs trade on `side`. */
  datatype Flow = Flow(id: string, trigger: string, slot: Slot, state: FlowState,
                       startingNet: Option<Net>, side: Option<Side>, closeId: Option<nat>, entryId: Option<nat>)
  {
    predicate Active() {
      state !in {Completed, Blocked}
    }
  }

  /** `tracked` maps an order row to the workflow row it belongs to; it lives in memory only. */
  datatype World = World(book: Book, flows: seq<Flow>, tracked: map<nat, nat>)

  /** The answers a handler gets: broker positions, health, the manager's lookups, and the gateway. */
  datatype Answers = Answers(netAtStart: Net, netAtFlat: Net, sessionHealthy: bool, dataHealthy: bool, closeNet: int,
                             entryNet: int, raises: bool, now: int)

  /** `left` effects remain before the process dies; `alive` is false once it has, or once it has raised. */
  datatype Ran = Ran(world: World, left: nat, alive: bool)

  function Untracked(w: World, f: Flow): map<nat, nat> {
    w.tracked - (if f.closeId.Some? then {f.closeId.value} else {}) - (if f.entryId.Some? then {f.entryId.value}
        else {})
  }

  ghost predicate SameIds(w: World, v: World) {
    |v.flows| == |w.flows| && forall i | 0 <= i < |w.flows| :: v.flows[i].id == w.flows[i].id
  }

  /** One legal, persisted transition; an illegal one raises. */
  function WriteFlow(w: World, i: nat, f: Flow, left: nat): (r: Ran)
    requires i < |w.flows| && f.id == w.flows[i].id
    ensures SameIds(w, r.world)
  {
    if !CanMove(w.flows[i].state, f.state) || left == 0 then Ran(w, left, false)
    else Ran(w.(flows := w.flows[i := f]), left - 1, true)
  }

  function Pause(w: World, i: nat, left: nat): (r: Ran)
    requires i < |w.flows|
    ensures SameIds(w, r.world)
  {
    var f := w.flows[i].(state := PausedSafe);
    var r := WriteFlow(w, i, f, left);
    if r.alive then r.(world := r.world.(tracked := Untracked(w, f))) else r
  }

  /** The close leg takes the recorded position to zero; the entry leg is always two lots. */
  function Leg(f: Flow, isClose: bool): Request
    requires f.side.Some? && f.startingNet.Some?
  {
    if isClose then Request(f.slot, f.side.value, Magnitude(f.startingNet.value), CloseKey(f.id), f.id, "reversal")
    else Request(f.slot, f.side.value, MAX_LOTS, EntryKey(f.id), f.id, "reversal")
  }

  /** A leg goes through the manager; its row is then linked and tracked. */
  function SubmitLeg(w: World, i: nat, isClose: bool, net: int, raises: bool, now: int, left: nat): (r: Ran)
    requires i < |w.flows| && w.flows[i].side.Some? && w.flows[i].startingNet.Some?
    ensures SameIds(w, r.world)
  {
    var sent := Submit(w.book, Leg(w.flows[i], isClose), Env(net, now, raises, left));
    AfterSubmit(w.(book := sent.book), i, isClose, sent.result, Remaining(w.book, sent.book, left))
  }

  function AfterSubmit(w: World, i: nat, isClose: bool, result: Result, left: nat): (r: Ran)
    requires i < |w.flows|
    ensures SameIds(w, r.world)
  {
    match result
    case Crashed => Ran(w, 0, false)
    case ActiveWorkflow | ExposureExceeded => Pause(w, i, left)
    case BlankReason | NotMxf => Ran(w, left, false)
    case Existing(id) => Link(w, i, isClose, id, left)
    case Sent(id) => Link(w, i, isClose, id, left)
    case SentUnknown(id) => Link(w, i, isClose, id, left)
  }

  function Link(w: World, i: nat, isClose: bool, id: nat, left: nat): (r: Ran)
    requires i < |w.flows|
    ensures SameIds(w, r.world)
  {
    var f := w.flows[i];
    var linked := if isClose then f.(state := CloseSubmitted, closeId := Some(id))
        else f.(state := EntrySubmitted, entryId := Some(id));
    var r := WriteFlow(w, i, linked, left);
    if r.alive then r.(world := r.world.(tracked := r.world.tracked[id := i])) else r
  }

  /** From `Started`: query the position; nothing to reverse blocks the workflow. */
  function FromStarted(w: World, i: nat, a: Answers, left: nat): (r: Ran)
    requires i < |w.flows|
    ensures SameIds(w, r.world)
  {
    var f := w.flows[i];
    var asked := w.(book := w.book.(trace := w.book.trace + [Asked(f.id, a.netAtStart)]));
    if a.netAtStart == 0 then
      var r := WriteFlow(asked, i, f.(state := Blocked), left);
      if r.alive then r.(world := r.world.(tracked := Untracked(w, f))) else r
    else
      var r := WriteFlow(asked, i, f.(state := PositionQueried, startingNet := Some(a.netAtStart),
          side := ClosingSide(a.netAtStart)), left);
      if r.alive then FromQueried(r.world, i, a, r.left) else r
  }

  function FromQueried(w: World, i: nat, a: Answers, left: nat): (r: Ran)
    requires i < |w.flows|
    ensures SameIds(w, r.world)
  {
    if w.flows[i].side.None? || w.flows[i].startingNet.None? then Ran(w, left, false)
    else SubmitLeg(w, i, true, a.closeNet, a.raises, a.now, left)
  }

  predicate FlatNow(a: Answers, active: bool) {
    a.netAtFlat == 0 && !active && a.sessionHealthy && a.dataHealthy
  }

  /** The fill report is not enough: a fresh query must show zero lots, no live order and healthy channels. */
  function FromCloseFilled(w: World, i: nat, a: Answers, left: nat): (r: Ran)
    requires i < |w.flows|
    ensures SameIds(w, r.world)
  {
    var f := w.flows[i];
    var active := HasActive(w.book.orders, f.slot);
    var asked := w.(book := w.book.(trace := w.book.trace
        + [Queried(f.id, a.netAtFlat, active, a.sessionHealthy, a.dataHealthy)]));
    if !FlatNow(a, active) then Pause(asked, i, left)
    else
      var r := WriteFlow(asked, i, f.(state := FlatConfirmed), left);
      if r.alive then FromFlat(r.world, i, a, r.left) else r
  }

  function FromFlat(w: World, i: nat, a: Answers, left: nat): (r: Ran)
    requires i < |w.flows|
    ensures SameIds(w, r.world)
  {
    if w.flows[i].side.None? || w.flows[i].startingNet.None? then Ran(w, left, false)
    else SubmitLeg(w, i, false, a.entryNet, a.raises, a.now, left)
  }

  /** The dispatcher shared by starting and resuming; submitted legs wait for events. */
  function Advance(w: World, i: nat, a: Answers, left: nat): (r: Ran)
    requires i < |w.flows|
    ensures SameIds(w, r.world)
  {
    match w.flows[i].state
    case Started => FromStarted(w, i, a, left)
    case PositionQueried => FromQueried(w, i, a, left)
    case CloseFilled => FromCloseFilled(w, i, a, left)
    case FlatConfirmed => FromFlat(w, i, a, left)
    case _ => Ran(w, left, true)
  }

  function FindTrigger(flows: seq<Flow>, trigger: string): (r: Option<nat>)
    ensures r.Some? ==> r.value < |flows| && flows[r.value].trigger == trigger
    ensures r.None? ==> forall i | 0 <= i < |flows| :: flows[i].trigger != trigger
  {
    if flows == [] then None
    else if flows[|flows| - 1].trigger == trigger then Some(|flows| - 1)
    else FindTrigger(flows[..|flows| - 1], trigger)
  }

  predicate HasActiveFlow(flows: seq<Flow>, slot: Slot) {
    exists i :: 0 <= i < |flows| && flows[i].slot == slot && flows[i].Active()
  }

  /** Only a reversal signal is taken. `id` is the fresh workflow id; too close to 04:55 the workflow is stored
      and blocked at once. */
  function StartReversal(w: World, reverse: bool, id: string, trigger: string, slot: Slot, tooClose: bool, a: Answers,
                         left: nat): Ran {
    if !reverse then Ran(w, left, false)
    else if FindTrigger(w.flows, trigger).Some? then Ran(w, left, true)
    else if HasActiveFlow(w.flows, slot) || left == 0 then Ran(w, left, false)
    else
      var i := |w.flows|;
      var w1 := w.(flows := w.flows + [Flow(id, trigger, slot, Started, None, None, None, None)]);
      if tooClose then WriteFlow(w1, i, w1.flows[i].(state := Blocked), left - 1)
      else Advance(w1, i, a, left - 1)
  }

  function CloseIsFilled(w: World, i: nat, a: Answers, left: nat): (r: Ran)
    requires i < |w.flows|
    ensures SameIds(w, r.world)
  {
    var r := WriteFlow(w, i, w.flows[i].(state := CloseFilled), left);
    if r.alive then Advance(r.world, i, a, r.left) else r
  }

  function EntryIsFilled(w: World, i: nat, left: nat): (r: Ran)
    requires i < |w.flows|
    ensures SameIds(w, r.world)
  {
    var f := w.flows[i].(state := Completed);
    var r := WriteFlow(w, i, f, left);
    if r.alive then r.(world := r.world.(tracked := Untracked(w, f))) else r
  }

  predicate Follows(w: World, order: nat) {
    order in w.tracked && w.tracked[order] < |w.flows| && w.flows[w.tracked[order]].state != PausedSafe
  }

  /** A tracked order reached a status. */
  function OnTransition(w: World, order: nat, to: Status, a: Answers, left: nat): Ran {
    if !Follows(w, order) then Ran(w, left, true)
    else
      var i := w.tracked[order];
      var f := w.flows[i];
      if to == Filled && f.closeId == Some(order) && f.state == CloseSubmitted then CloseIsFilled(w, i, a, left)
      else if to == Filled && f.entryId == Some(order) && f.state == EntrySubmitted then EntryIsFilled(w, i, left)
      else if to == Cancelled then Pause(w, i, left)
      else Ran(w, left, true)
  }

  function OnManualReview(w: World, order: nat, left: nat): Ran {
    if !Follows(w, order) then Ran(w, left, true) else Pause(w, w.tracked[order], left)
  }

  /** After a restart the map is rebuilt from the active, unpaused workflows. */
  function Reloaded(flows: seq<Flow>): map<nat, nat> {
    if flows == [] then map[]
    else
      var f, i := flows[|flows| - 1], |flows| - 1;
      var rest := Reloaded(flows[..i]);
      if !f.Active() || f.state == PausedSafe then rest
      else
        var closed := if f.closeId.Some? then rest[f.closeId.value := i] else rest;
        if f.entryId.Some? then closed[f.entryId.value := i] else closed
  }

  /** A submitted leg is judged by its stored order. */
  function ResumeLinked(w: World, i: nat, order: nat, isClose: bool, a: Answers, left: nat): (r: Ran)
    requires i < |w.flows|
    ensures SameIds(w, r.world)
  {
    if order >= |w.book.orders| then Pause(w, i, left)
    else
      var w1 := w.(tracked := w.tracked[order := i]);
      match w.book.orders[order].status
      case Filled => if isClose then CloseIsFilled(w1, i, a, left) else EntryIsFilled(w1, i, left)
      case Rejected | Unknown | Cancelled => Pause(w1, i, left)
      case _ => Ran(w1, left, true)
  }

  function ResumeOne(w: World, i: nat, a: Answers, left: nat): (r: Ran)
    requires i < |w.flows|
    ensures SameIds(w, r.world)
  {
    var f := w.flows[i];
    if !f.Active() || f.state == PausedSafe then Ran(w, left, true)
    else if f.state == CloseSubmitted then
      if f.closeId.None? then Ran(w, left, false) else ResumeLinked(w, i, f.closeId.value, true, a, left)
    else if f.state == EntrySubmitted then
      if f.entryId.None? then Ran(w, left, false) else ResumeLinked(w, i, f.entryId.value, false, a, left)
    else Advance(w, i, a, left)
  }

  /** The active workflows in the order they were made; an exception ends the loop. */
  function ResumeUpTo(w: World, n: nat, answers: nat -> Answers, left: nat): (r: Ran)
    requires n <= |w.flows|
    ensures SameIds(w, r.world)
  {
    if n == 0 then Ran(w, left, true)
    else
      var before := ResumeUpTo(w, n - 1, answers, left);
      if !before.alive then before else ResumeOne(before.world, n - 1, answers(n - 1), before.left)
  }

  function ResumePending(w: World, answers: nat -> Answers, left: nat): Ran {
    var reloaded := w.(tracked := Reloaded(w.flows));
    ResumeUpTo(reloaded, |w.flows|, answers, left)
  }
}
