/** The flatten does what it is for: a crossing into the band sends the close of the whole position, and only a
    confirmed flat position completes it. */
module FlattenProgress {
  import opened Domain
  import opened OrderModel
  import opened ManagerModel
  import opened Legs
  import opened BookGrowth
  import opened FlattenModel

  lemma CloseGoesThrough(w: World, i: nat, a: Answers, left: nat)
    requires i < |w.flows| && w.flows[i].side.Some? && w.flows[i].startingNet.Some?
        && w.flows[i].state == PositionQueried && left >= 4
    requires SeriesOf(w.flows[i].slot) in w.lastPrice && !a.raises && Admissible(w.book, Close(w.flows[i]), a.closeNet)
    ensures var f, id := w.flows[i], |w.book.orders|;
            FromQueried(w, i, a, left)
              == Ran(w.(book := SentBook(w.book, Close(f), a.now),
                  flows := w.flows[i := f.(state := CloseSubmitted, closeId := Some(id))],
                        tracked := w.tracked[id := i]), left - 4, true)
  {
    hide Submit, Admissible, SentBook, Close;
    SubmitGoesThrough(w.book, Close(w.flows[i]), Env(a.closeNet, a.now, false, left));
    SpendsThree(w.book, Close(w.flows[i]), a.now, left);
    hide Remaining;
  }

  /** A new workflow over an open position with a known price and no live order sends its close at once. */
  lemma BeginSendsClose(w: World, id: string, trigger: Trigger, slot: Slot, a: Answers, left: nat)
    requires FindTrigger(w.flows, trigger).None? && !HasActiveFlow(w.flows, slot) && left >= 6
    requires a.net != 0 && a.closeNet == a.net && !a.raises && slot.instrument == Mxf && SeriesOf(slot) in w.lastPrice
    requires FindKey(w.book.orders, CloseKey(id)).None? && !HasActive(w.book.orders, slot)
    ensures var r := Begin(w, id, trigger, slot, a, left);
            var row := |w.book.orders|;
            && r.alive && r.world.tracked == w.tracked[row := |w.flows|]
            && r.world.inBand == w.inBand && r.world.lastPrice == w.lastPrice
            && r.world.book.orders == w.book.orders
                 + [NewIntent(Request(slot, ClosingSide(a.net).value, Magnitude(a.net), CloseKey(id), id, "flatten"),
                     a.now).(status := Submitting)]
            && r.world.flows == w.flows + [Flow(id, trigger, slot, CloseSubmitted, Some(a.net), ClosingSide(a.net),
                Some(row))]
            && r.world.book.trace == w.book.trace
                 + [Asked(id, a.net), Wrote(row, Created), Wrote(row, Submitting),
                     Called(row, CloseKey(id), slot, ClosingSide(a.net).value, Magnitude(a.net))]
  {
    hide FindKey, HasActive, FindTrigger, HasActiveFlow, CloseKey, FromQueried, Begin, Admissible, ClosingSide;
    var i, q := |w.flows|, Asking(id, trigger, slot, a.net);
    var w2 := w.(book := w.book.(trace := w.book.trace + [Asked(id, a.net)]), flows := w.flows + [q]);
    SideIsKnown(a.net);
    BeginAdvances(w, id, trigger, slot, a, left);
    CloseIsAdmissible(w.book, id, slot, a);
    CloseGoesThrough(w2, i, a, left - 2);
    var g := q.(state := CloseSubmitted, closeId := Some(|w.book.orders|));
    assert w2.flows[i := g] == w.flows + [g];
  }

  /** A workflow that has just recorded its position. */
  function Asking(id: string, trigger: Trigger, slot: Slot, net: Net): Flow {
    Flow(id, trigger, slot, PositionQueried, Some(net), ClosingSide(net), None)
  }

  lemma SideIsKnown(net: Net)
    requires net != 0
    ensures ClosingSide(net).Some?
  {
  }

  /** With no live order the position is asked and recorded at once. */
  lemma BeginAdvances(w: World, id: string, trigger: Trigger, slot: Slot, a: Answers, left: nat)
    requires FindTrigger(w.flows, trigger).None? && !HasActiveFlow(w.flows, slot) && left >= 2
    requires a.net != 0 && !HasActive(w.book.orders, slot)
    ensures var noted := w.book.(trace := w.book.trace + [Asked(id, a.net)]);
            var asked := w.(book := noted, flows := w.flows + [Asking(id, trigger, slot, a.net)]);
            Begin(w, id, trigger, slot, a, left) == FromQueried(asked, |w.flows|, a, left - 2)
  {
    hide HasActive, FindTrigger, HasActiveFlow, FromQueried;
    var q, f := Asking(id, trigger, slot, a.net), NewFlow(id, trigger, slot);
    assert (w.flows + [f])[|w.flows| := q] == w.flows + [q];
  }

  lemma CloseIsAdmissible(b: Book, id: string, slot: Slot, a: Answers)
    requires a.net != 0 && a.closeNet == a.net && slot.instrument == Mxf
    requires FindKey(b.orders, CloseKey(id)).None? && !HasActive(b.orders, slot)
    ensures var r := Request(slot, ClosingSide(a.net).value, Magnitude(a.net), CloseKey(id), id, "flatten");
            Admissible(b.(trace := b.trace + [Asked(id, a.net)]), r, a.closeNet)
  {
    LegsFitTheCap(a.net);
    SaysSomething("flatten");
    hide Blank, FindKey, HasActive, CloseKey;
  }

  /** A look at the clock starts a scheduled workflow if and only if the previous look of this process was
      outside the band and this one is inside, no workflow has the trigger or the slot, and the session is
      healthy. */
  lemma LookStartsExactly(w: World, s: Settings, slot: Slot, id: string, now: int, healthy: bool, a: Answers, left: nat)
    requires left > 0
    ensures var series := SeriesOf(slot);
            var r := MaybeTrigger(w, s, Some(slot), id, now, healthy, a, left);
            var starts := && InNoEntryBand(s, now) && series in w.inBand && !w.inBand[series] && healthy
                          && FindTrigger(w.flows, Scheduled(series, DateOf(now))).None?
                              && !HasActiveFlow(w.flows, slot);
            && r.world.inBand == w.inBand[series := InNoEntryBand(s, now)]
            && |r.world.flows| == |w.flows| + (if starts then 1 else 0)
            && (starts ==>
                  && r.world.flows[|w.flows|].trigger == Scheduled(series, DateOf(now))
                  && r.world.flows[|w.flows|].slot == slot)
            && (!starts ==> r.world.flows == w.flows && r.world.book == w.book)
  {
    hide Advance, FindTrigger, HasActiveFlow, InNoEntryBand;
  }

  /** The close is filled: a flat, quiet, healthy account completes the workflow, anything else pauses it. */
  lemma CloseFillDecides(w: World, order: nat, a: Answers, left: nat)
    requires Follows(w, order) && left >= 2 && w.flows[w.tracked[order]].state == CloseSubmitted
    requires w.flows[w.tracked[order]].closeId == Some(order)
    ensures var i := w.tracked[order];
            var f, active := w.flows[i], HasActive(w.book.orders, w.flows[i].slot);
            var r := OnTransition(w, order, Filled, a, left);
            && r.alive && order !in r.world.tracked
            && r.world.flows == w.flows[i := f.(state := if FlatNow(a, active) then Completed else PausedSafe)]
            && r.world.book == w.book.(trace := w.book.trace
                + [Queried(f.id, a.netAtFlat, active, a.sessionHealthy, a.dataHealthy)])
  {
    hide HasActive;
    var i := w.tracked[order];
    var f := w.flows[i];
    assert OnTransition(w, order, Filled, a, left)
        == FromCloseFilled(w.(flows := w.flows[i := f.(state := CloseFilled)]), i, a, left - 1);
  }

  /** A workflow that meets a live order waits, without asking or sending, however often it is resumed. */
  lemma WaitsForLiveOrders(w: World, i: nat, a: Answers, left: nat)
    requires i < |w.flows| && w.flows[i].state in {Started, WaitingActiveOrders}
        && HasActive(w.book.orders, w.flows[i].slot) && left > 0
    ensures var r := ResumeOne(w, i, a, left);
            r.alive && r.world == w.(flows := w.flows[i := w.flows[i].(state := WaitingActiveOrders)])
  {
    assert w.flows[i].state == WaitingActiveOrders
        ==> w.flows[i := w.flows[i].(state := WaitingActiveOrders)] == w.flows;
  }
}
