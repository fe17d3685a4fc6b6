/** The "close everything now" workflow behind the 04:55 flatten and the emergency button. */
module FlattenModel {
  import opened Domain
  import opened OrderModel
  import opened ManagerModel
  import opened Legs

  datatype FlattenState = Started | WaitingActiveOrders | PositionQueried | CloseSubmitted | CloseFilled | Completed
                        | AlreadyFlat | PausedSafe

  predicate CanMove(from: FlattenState, to: FlattenState) {
    match from
    case Started => to in {WaitingActiveOrders, AlreadyFlat, PositionQueried, PausedSafe}
    case WaitingActiveOrders => to in {AlreadyFlat, PositionQueried, PausedSafe}
    case PositionQueried => to in {CloseSubmitted, PausedSafe}
    case CloseSubmitted => to in {CloseFilled, PausedSafe}
    case CloseFilled => to in {Completed, PausedSafe}
    case Completed | AlreadyFlat | PausedSafe => false
  }

  datatype Series = Series(instrument: Instrument, contract: string)

  /** A scheduled trigger names the contract and the calendar date, not the account; an emergency one is unique. */
  datatype Trigger = Scheduled(series: Series, date: int) | Emergency(token: string)

  datatype Flow = Flow(id: string, trigger: Trigger, slot: Slot, state: FlattenState, startingNet: Option<Net>,
                       side: Option<Side>, closeId: Option<nat>)
  {
    predicate Active() {
      state !in {Completed, AlreadyFlat}
    }

    /** Neither finished nor parked for an operator. */
    predicate Moving() {
      Active() && state != PausedSafe
    }
  }

  datatype Settings = Settings(eodFlatten: int, entryGate: int, simulation: bool)

  predicate InNoEntryBand(s: Settings, now: int) {
    s.eodFlatten <= TimeOfDay(now) < s.entryGate
  }

  function SeriesOf(slot: Slot): Series {
    Series(slot.instrument, slot.contract)
  }

  /** The book and the workflows survive a restart; `tracked`, `inBand` and `lastPrice` do not. */
  datatype World = World(book: Book, flows: seq<Flow>, tracked: map<nat, nat>, inBand: map<Series, bool>,
                         lastPrice: map<Series, real>)

  datatype Answers = Answers(net: Net, netAtFlat: Net, sessionHealthy: bool, dataHealthy: bool, closeNet: int,
      raises: bool,
                             now: int)

  datatype Ran = Ran(world: World, left: nat, alive: bool)

  predicate SameFlow(f: Flow, g: Flow) {
    g.id == f.id && g.trigger == f.trigger && g.slot == f.slot
  }

  /** Same workflows for the same triggers, same look at the clock. */
  ghost predicate Kept(w: World, v: World) {
    && |v.flows| == |w.flows| && v.inBand == w.inBand && v.lastPrice == w.lastPrice
    && forall i | 0 <= i < |w.flows| :: SameFlow(w.flows[i], v.flows[i])
  }

  function WriteFlow(w: World, i: nat, f: Flow, left: nat): (r: Ran)
    requires i < |w.flows| && SameFlow(w.flows[i], f)
    ensures Kept(w, r.world)
  {
    if !CanMove(w.flows[i].state, f.state) || left == 0 then Ran(w, left, false)
    else Ran(w.(flows := w.flows[i := f]), left - 1, true)
  }

  function Untracked(tracked: map<nat, nat>, f: Flow): map<nat, nat> {
    if f.closeId.Some? then tracked - {f.closeId.value} else tracked
  }

  /** Write, then stop following the order. */
  function WriteAndUntrack(w: World, i: nat, f: Flow, left: nat): (r: Ran)
    requires i < |w.flows| && SameFlow(w.flows[i], f)
    ensures Kept(w, r.world)
  {
    var r := WriteFlow(w, i, f, left);
    if r.alive then r.(world := r.world.(tracked := Untracked(w.tracked, f))) else r
  }

  function Pause(w: World, i: nat, left: nat): (r: Ran)
    requires i < |w.flows|
    ensures Kept(w, r.world)
  {
    WriteAndUntrack(w, i, w.flows[i].(state := PausedSafe), left)
  }

  function Close(f: Flow): Request
    requires f.side.Some? && f.startingNet.Some?
  {
    Request(f.slot, f.side.value, Magnitude(f.startingNet.value), CloseKey(f.id), f.id, "flatten")
  }

  function Link(w: World, i: nat, id: nat, left: nat): (r: Ran)
    requires i < |w.flows|
    ensures Kept(w, r.world)
  {
    var r := WriteFlow(w, i, w.flows[i].(state := CloseSubmitted, closeId := Some(id)), left);
    if r.alive then r.(world := r.world.(tracked := r.world.tracked[id := i])) else r
  }

  function AfterSubmit(w: World, i: nat, result: Result, left: nat): (r: Ran)
    requires i < |w.flows|
    ensures Kept(w, r.world)
  {
    match result
    case Crashed => Ran(w, 0, false)
    case ActiveWorkflow | ExposureExceeded => Pause(w, i, left)
    case BlankReason | NotMxf => Ran(w, left, false)
    case Existing(id) => Link(w, i, id, left)
    case Sent(id) => Link(w, i, id, left)
    case SentUnknown(id) => Link(w, i, id, left)
  }

  /** Without a bar close there is no price to send an order at. */
  function FromQueried(w: World, i: nat, a: Answers, left: nat): (r: Ran)
    requires i < |w.flows|
    ensures Kept(w, r.world)
  {
    var f := w.flows[i];
    if f.side.None? || f.startingNet.None? then Ran(w, left, false)
    else if SeriesOf(f.slot) !in w.lastPrice then Pause(w, i, left)
    else
      var sent := Submit(w.book, Close(f), Env(a.closeNet, a.now, a.raises, left));
      AfterSubmit(w.(book := sent.book), i, sent.result, Remaining(w.book, sent.book, left))
  }

  /** A live order is waited for; then the position is asked. */
  function FromStarted(w: World, i: nat, a: Answers, left: nat): (r: Ran)
    requires i < |w.flows|
    ensures Kept(w, r.world)
  {
    var f := w.flows[i];
    if HasActive(w.book.orders, f.slot) then
      if f.state == WaitingActiveOrders then Ran(w, left, true)
          else WriteFlow(w, i, f.(state := WaitingActiveOrders), left)
    else
      var asked := w.(book := w.book.(trace := w.book.trace + [Asked(f.id, a.net)]));
      if a.net == 0 then WriteFlow(asked, i, f.(state := AlreadyFlat), left)
      else
        var r := WriteFlow(asked, i, f.(state := PositionQueried, startingNet := Some(a.net),
            side := ClosingSide(a.net)), left);
        if r.alive then FromQueried(r.world, i, a, r.left) else r
  }

  predicate FlatNow(a: Answers, active: bool) {
    a.netAtFlat == 0 && !active && a.sessionHealthy && a.dataHealthy
  }

  function FromCloseFilled(w: World, i: nat, a: Answers, left: nat): (r: Ran)
    requires i < |w.flows|
    ensures Kept(w, r.world)
  {
    var f := w.flows[i];
    var active := HasActive(w.book.orders, f.slot);
    var asked := w.(book := w.book.(trace := w.book.trace
        + [Queried(f.id, a.netAtFlat, active, a.sessionHealthy, a.dataHealthy)]));
    if !FlatNow(a, active) then Pause(asked, i, left) else WriteAndUntrack(asked, i, f.(state := Completed), left)
  }

  function Advance(w: World, i: nat, a: Answers, left: nat): (r: Ran)
    requires i < |w.flows|
    ensures Kept(w, r.world)
  {
    match w.flows[i].state
    case Started | WaitingActiveOrders => FromStarted(w, i, a, left)
    case PositionQueried => FromQueried(w, i, a, left)
    case CloseFilled => FromCloseFilled(w, i, a, left)
    case _ => Ran(w, left, true)
  }

  // ---- triggers ----

  function FindTrigger(flows: seq<Flow>, trigger: Trigger): (r: Option<nat>)
    ensures r.Some? ==> r.value < |flows| && flows[r.value].trigger == trigger
    ensures r.None? ==> forall i | 0 <= i < |flows| :: flows[i].trigger != trigger
  {
    if flows == [] then None
    else if flows[|flows| - 1].trigger == trigger then Some(|flows| - 1)
    else FindTrigger(flows[..|flows| - 1], trigger)
  }

  predicate HasActiveFlow(flows: seq<Flow>, slot: Slot) {
    exists i :: 0 <= i < |flows| && flows[i].slot == slot && flows[i].Active()
  }

  function NewFlow(id: string, trigger: Trigger, slot: Slot): Flow {
    Flow(id, trigger, slot, Started, None, None, None)
  }

  /** One workflow per trigger, and one active per account and contract. */
  function Begin(w: World, id: string, trigger: Trigger, slot: Slot, a: Answers, left: nat): Ran {
    if FindTrigger(w.flows, trigger).Some? || HasActiveFlow(w.flows, slot) then Ran(w, left, true)
    else if left == 0 then Ran(w, left, false)
    else Advance(w.(flows := w.flows + [NewFlow(id, trigger, slot)]), |w.flows|, a, left - 1)
  }

  /** Only a crossing seen by this process counts: the previous look must have been outside the band. The
      look is remembered whatever follows. */
  function MaybeTrigger(w: World, s: Settings, selected: Option<Slot>, id: string, now: int, healthy: bool, a: Answers,
                        left: nat): Ran
  {
    if selected.None? then Ran(w, left, true)
    else
      var slot, series := selected.value, SeriesOf(selected.value);
      var looked := w.(inBand := w.inBand[series := InNoEntryBand(s, now)]);
      if !InNoEntryBand(s, now) || series !in w.inBand || w.inBand[series] then Ran(looked, left, true)
      else
        var trigger := Scheduled(series, DateOf(now));
        if FindTrigger(w.flows, trigger).Some? || !healthy then Ran(looked, left, true)
        else Begin(looked, id, trigger, slot, a, left)
  }

  /** The operator's number must still be what the broker says; a workflow already active raises. */
  function TriggerEmergency(w: World, id: string, token: string, slot: Slot, confirmed: Net, actual: Net, a: Answers,
                            left: nat): Ran {
    if actual != confirmed then Ran(w, left, false)
    else if FindTrigger(w.flows, Emergency(token)).None? && HasActiveFlow(w.flows, slot) then Ran(w, left, false)
    else Begin(w, id, Emergency(token), slot, a, left)
  }

  // ---- events ----

  predicate Follows(w: World, order: nat) {
    order in w.tracked && w.tracked[order] < |w.flows| && w.flows[w.tracked[order]].state != PausedSafe
  }

  function CloseIsFilled(w: World, i: nat, a: Answers, left: nat): (r: Ran)
    requires i < |w.flows|
    ensures Kept(w, r.world)
  {
    var r := WriteFlow(w, i, w.flows[i].(state := CloseFilled), left);
    if r.alive then Advance(r.world, i, a, r.left) else r
  }

  /** Any fill of a tracked order is taken for the close; the map alone says which workflow it belongs to. */
  function OnTransition(w: World, order: nat, to: Status, a: Answers, left: nat): Ran {
    if !Follows(w, order) then Ran(w, left, true)
    else if to == Filled then CloseIsFilled(w, w.tracked[order], a, left)
    else if to == Cancelled then Pause(w, w.tracked[order], left)
    else Ran(w, left, true)
  }

  function OnManualReview(w: World, order: nat, left: nat): Ran {
    if !Follows(w, order) then Ran(w, left, true) else Pause(w, w.tracked[order], left)
  }

  // ---- recovery and the clock ----

  function Reloaded(flows: seq<Flow>): map<nat, nat> {
    if flows == [] then map[]
    else
      var f, rest := flows[|flows| - 1], Reloaded(flows[..|flows| - 1]);
      if f.Moving() && f.closeId.Some? then rest[f.closeId.value := |flows| - 1] else rest
  }

  function ResumeLinked(w: World, i: nat, order: nat, a: Answers, left: nat): (r: Ran)
    requires i < |w.flows|
    ensures Kept(w, r.world)
  {
    if order >= |w.book.orders| then Pause(w, i, left)
    else
      var w1 := w.(tracked := w.tracked[order := i]);
      match w.book.orders[order].status
      case Filled => CloseIsFilled(w1, i, a, left)
      case Rejected | Unknown | Cancelled => Pause(w1, i, left)
      case _ => Ran(w1, left, true)
  }

  function ResumeOne(w: World, i: nat, a: Answers, left: nat): (r: Ran)
    requires i < |w.flows|
    ensures Kept(w, r.world)
  {
    var f := w.flows[i];
    if !f.Moving() then Ran(w, left, true)
    else if f.state == CloseSubmitted then
      if f.closeId.None? then Ran(w, left, false) else ResumeLinked(w, i, f.closeId.value, a, left)
    else Advance(w, i, a, left)
  }

  function ResumeUpTo(w: World, n: nat, answers: nat -> Answers, left: nat): (r: Ran)
    requires n <= |w.flows|
    ensures Kept(w, r.world)
  {
    if n == 0 then Ran(w, left, true)
    else
      var before := ResumeUpTo(w, n - 1, answers, left);
      if !before.alive then before else ResumeOne(before.world, n - 1, answers(n - 1), before.left)
  }

  predicate Retirable(f: Flow) {
    f.trigger.Scheduled? && f.state in {Started, WaitingActiveOrders}
  }

  /** In simulation a scheduled workflow that never got past waiting is retired. */
  function RetireUpTo(w: World, n: nat, left: nat): (r: Ran)
    requires n <= |w.flows|
    ensures Kept(w, r.world)
  {
    if n == 0 then Ran(w, left, true)
    else
      var before := RetireUpTo(w, n - 1, left);
      if !before.alive || !Retirable(before.world.flows[n - 1]) then before
      else WriteFlow(before.world, n - 1, before.world.flows[n - 1].(state := AlreadyFlat), before.left)
  }

  function RetireSimulated(w: World, s: Settings, left: nat): (r: Ran)
    ensures Kept(w, r.world)
  {
    if s.simulation then RetireUpTo(w, |w.flows|, left) else Ran(w, left, true)
  }

  datatype Tick = Tick(selected: Option<Slot>, id: string, now: int, healthy: bool, a: Answers, answers: nat -> Answers)

  /** Retire, then resume every workflow that is moving. */
  function Polled(w: World, s: Settings, answers: nat -> Answers, left: nat): (r: Ran)
    ensures Kept(w, r.world)
  {
    var retired := RetireSimulated(w, s, left);
    if !retired.alive then retired else ResumeUpTo(retired.world, |retired.world.flows|, answers, retired.left)
  }

  /** The workflows first, then the clock. */
  function OnClockTick(w: World, s: Settings, t: Tick, left: nat): Ran {
    var polled := Polled(w, s, t.answers, left);
    if !polled.alive || s.simulation then polled
    else MaybeTrigger(polled.world, s, t.selected, t.id, t.now, t.healthy, t.a, polled.left)
  }

  function OnSessionReady(w: World, s: Settings, t: Tick, left: nat): Ran {
    OnClockTick(w.(tracked := Reloaded(w.flows)), s, t, left)
  }

  function OnBarClosed(w: World, series: Series, close: real): World {
    w.(lastPrice := w.lastPrice[series := close])
  }

  /** A new process: memory is empty, the map is rebuilt. */
  function Restarted(w: World, s: Settings, left: nat): Ran {
    var r := RetireSimulated(w.(tracked := map[], inBand := map[], lastPrice := map[]), s, left);
    if r.alive then r.(world := r.world.(tracked := Reloaded(r.world.flows))) else r
  }
}
