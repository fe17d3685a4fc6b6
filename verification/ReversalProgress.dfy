/** The reversal does what it is for: with nothing in the way each stage sends its leg, and a position that is
    not confirmed flat stops it. */
module ReversalProgress {
  import opened Domain
  import opened OrderModel
  import opened ManagerModel
  import opened Legs
  import opened BookGrowth
  import opened ReversalModel

  /** The book after a leg of `f` went through. */
  function LegSent(b: Book, f: Flow, isClose: bool, now: int): Book
    requires f.side.Some? && f.startingNet.Some?
  {
    SentBook(b, Leg(f, isClose), now)
  }

  lemma LegGoesThrough(w: World, i: nat, isClose: bool, net: int, now: int, left: nat)
    requires i < |w.flows| && w.flows[i].side.Some? && w.flows[i].startingNet.Some? && left >= 4
    requires w.flows[i].state == (if isClose then PositionQueried else FlatConfirmed)
    requires Admissible(w.book, Leg(w.flows[i], isClose), net)
    ensures var f, id := w.flows[i], |w.book.orders|;
            var g := if isClose then f.(state := CloseSubmitted, closeId := Some(id))
                else f.(state := EntrySubmitted, entryId := Some(id));
            SubmitLeg(w, i, isClose, net, false, now, left)
              == Ran(World(LegSent(w.book, f, isClose, now), w.flows[i := g], w.tracked[id := i]), left - 4, true)
  {
    hide Submit, Admissible, SentBook, Leg;
    SubmitGoesThrough(w.book, Leg(w.flows[i], isClose), Env(net, now, false, left));
    SpendsThree(w.book, Leg(w.flows[i], isClose), now, left);
    hide Remaining;
  }

  /** A new reversal of an open position asks for it and sends the close that brings it to zero. */
  lemma StartSendsClose(w: World, id: string, trigger: string, slot: Slot, a: Answers, left: nat)
    requires FindTrigger(w.flows, trigger).None? && !HasActiveFlow(w.flows, slot) && left >= 6
    requires a.netAtStart != 0 && a.closeNet == a.netAtStart && !a.raises && slot.instrument == Mxf
    requires FindKey(w.book.orders, CloseKey(id)).None? && !HasActive(w.book.orders, slot)
    ensures var r := StartReversal(w, true, id, trigger, slot, false, a, left);
            var net, row := a.netAtStart, |w.book.orders|;
            var f := Flow(id, trigger, slot, CloseSubmitted, Some(net), ClosingSide(net), Some(row), None);
            && r.alive && r.world.flows == w.flows + [f] && r.world.tracked == w.tracked[row := |w.flows|]
            && r.world.book.orders == w.book.orders + [NewIntent(Leg(f, true), a.now).(status := Submitting)]
            && r.world.book.trace == w.book.trace
                 + [Asked(id, net), Wrote(row, Created), Wrote(row, Submitting),
                     Called(row, CloseKey(id), slot, ClosingSide(net).value, Magnitude(net))]
  {
    var net: Net, i := a.netAtStart, |w.flows|;
    var f := Flow(id, trigger, slot, Started, None, None, None, None);
    var w1 := w.(flows := w.flows + [f]);
    var q := f.(state := PositionQueried, startingNet := Some(net), side := ClosingSide(net));
    var w2 := World(w.book.(trace := w.book.trace + [Asked(id, net)]), w1.flows[i := q], w.tracked);
    LegsFitTheCap(net);
    SaysSomething("reversal");
    hide Blank, FindKey, HasActive, FindTrigger, HasActiveFlow, CloseKey, EntryKey, SubmitLeg;
    assert StartReversal(w, true, id, trigger, slot, false, a, left) == FromQueried(w2, i, a, left - 2);
    assert Admissible(w2.book, Leg(q, true), a.closeNet);
    LegGoesThrough(w2, i, true, a.closeNet, a.now, left - 2);
    var g := q.(state := CloseSubmitted, closeId := Some(|w.book.orders|));
    assert w2.flows[i := g] == w.flows + [g];
  }

  /** The close is filled: a flat, quiet, healthy account gets the two-lot entry, anything else a pause. */
  lemma CloseFillDecides(w: World, order: nat, a: Answers, left: nat)
    requires Follows(w, order) && left >= 6 && !a.raises && a.entryNet == a.netAtFlat
    requires var f := w.flows[w.tracked[order]];
             && f.state == CloseSubmitted && f.closeId == Some(order) && f.startingNet.Some? && f.startingNet.value != 0
             && f.side == ClosingSide(f.startingNet.value) && f.slot.instrument == Mxf
                 && FindKey(w.book.orders, EntryKey(f.id)).None?
    ensures var i := w.tracked[order];
            var f, row, active := w.flows[i], |w.book.orders|, HasActive(w.book.orders, w.flows[i].slot);
            var r := OnTransition(w, order, Filled, a, left);
            var asked := w.book.trace + [Queried(f.id, a.netAtFlat, active, a.sessionHealthy, a.dataHealthy)];
            && r.alive
            && (FlatNow(a, active) ==>
                  && r.world.flows == w.flows[i := f.(state := EntrySubmitted, entryId := Some(row))]
                  && r.world.tracked == w.tracked[row := i]
                  && r.world.book.orders == w.book.orders + [NewIntent(Leg(f, false), a.now).(status := Submitting)]
                  && r.world.book.trace == asked
                       + [Wrote(row, Created), Wrote(row, Submitting),
                           Called(row, EntryKey(f.id), f.slot, f.side.value, MAX_LOTS)])
            && (!FlatNow(a, active) ==>
                  && r.world.flows == w.flows[i := f.(state := PausedSafe)] && order !in r.world.tracked
                  && r.world.book == w.book.(trace := asked))
  {
    var i := w.tracked[order];
    var f := w.flows[i];
    var active := HasActive(w.book.orders, f.slot);
    var filled := f.(state := CloseFilled);
    var w1 := w.(flows := w.flows[i := filled]);
    var asked := w1.(book := w.book.(trace := w.book.trace
        + [Queried(f.id, a.netAtFlat, active, a.sessionHealthy, a.dataHealthy)]));
    LegsFitTheCap(f.startingNet.value);
    SaysSomething("reversal");
    hide Blank, FindKey, HasActive, CloseKey, EntryKey, SubmitLeg;
    assert OnTransition(w, order, Filled, a, left) == FromCloseFilled(w1, i, a, left - 1);
    if FlatNow(a, active) {
      var flat := asked.(flows := asked.flows[i := f.(state := FlatConfirmed)]);
      assert OnTransition(w, order, Filled, a, left) == FromFlat(flat, i, a, left - 2);
      assert Admissible(flat.book, Leg(flat.flows[i], false), a.entryNet);
      LegGoesThrough(flat, i, false, a.entryNet, a.now, left - 2);
    } else {
      assert asked.flows[i := f.(state := PausedSafe)] == w.flows[i := f.(state := PausedSafe)];
    }
  }

  /** The entry is filled: the reversal is complete and no longer followed. */
  lemma EntryFillCompletes(w: World, order: nat, a: Answers, left: nat)
    requires Follows(w, order) && left >= 1
    requires var f := w.flows[w.tracked[order]]; f.state == EntrySubmitted && f.entryId == Some(order)
    ensures var r := OnTransition(w, order, Filled, a, left);
            && r.alive && r.world.book == w.book && order !in r.world.tracked
            && r.world.flows == w.flows[w.tracked[order] := w.flows[w.tracked[order]].(state := Completed)]
  {
  }
}
