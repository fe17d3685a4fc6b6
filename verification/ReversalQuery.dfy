/** Whether the entry of a reversal directly follows the query that confirmed it. */
module ReversalQuery {
  import opened Domain
  import opened OrderModel
  import opened ManagerModel
  import ManagerProofs
  import opened Legs
  import opened BookGrowth
  import opened ReversalModel
  import opened ReversalProofs
  import opened ReversalHalt

  /** From `b` on and before position `j`, a query showed the account of `id` flat, quiet and healthy. */
  ghost predicate AskedWithin(b: Book, c: Book, id: string, j: int) {
    exists m :: |b.trace| <= m < j <= |c.trace| && c.trace[m] == Queried(id, 0, false, true, true)
  }

  predicate IsEntryOf(e: Effect, id: string) {
    e.Called? && e.key == EntryKey(id)
  }

  /** An entry of `f` called between `b` and `c` has its query there too, unless the flat position was confirmed
      before. */
  ghost predicate Story(b: Book, c: Book, f: Flow) {
    b.trace <= c.trace
    && forall j | |b.trace| <= j < |c.trace| && IsEntryOf(c.trace[j], f.id) :: AskedWithin(b, c, f.id, j)
        <==> f.state != FlatConfirmed
  }

  ghost predicate NoEntry(b: Book, c: Book, id: string) {
    b.trace <= c.trace && forall j | |b.trace| <= j < |c.trace| :: !IsEntryOf(c.trace[j], id)
  }

  lemma NoEntryIsStory(b: Book, c: Book, f: Flow)
    requires NoEntry(b, c, f.id)
    ensures Story(b, c, f)
  {
    hide AskedWithin, IsEntryOf;
  }

  lemma NoEntryJoins(b: Book, c: Book, d: Book, id: string)
    requires NoEntry(b, c, id) && NoEntry(c, d, id)
    ensures NoEntry(b, d, id)
  {
    hide IsEntryOf;
    forall j | |b.trace| <= j < |d.trace| ensures !IsEntryOf(d.trace[j], id) {
      if j < |c.trace| {
        assert d.trace[j] == c.trace[j];
      }
    }
  }

  // ---- one handler on its own workflow ----

  lemma SubmitCalls(b: Book, r: Request, env: Env)
    ensures OnlyCalls(b, Submit(b, r, env).book, r.key, r.slot, r.side, r.lots)
        && b.trace <= Submit(b, r, env).book.trace
  {
    SendCalls(b, r, env);
    SendShape(b, r, env);
    hide Send, SendTrace, Blank, WorstCase;
  }

  /** Linking and pausing leave the trace as the manager made it. */
  lemma LegTrace(w: World, i: nat, isClose: bool, net: int, raises: bool, now: int, left: nat)
    requires i < |w.flows| && w.flows[i].side.Some? && w.flows[i].startingNet.Some?
    ensures SubmitLeg(w, i, isClose, net, raises, now, left).world.book
         == Submit(w.book, Leg(w.flows[i], isClose), Env(net, now, raises, left)).book
  {
    hide Submit, Leg;
  }

  lemma QueriedSendsNoEntry(w: World, i: nat, a: Answers, left: nat)
    requires i < |w.flows|
    ensures NoEntry(w.book, FromQueried(w, i, a, left).world.book, w.flows[i].id)
  {
    hide SubmitLeg, Submit, CloseKey, EntryKey;
    if w.flows[i].side.Some? && w.flows[i].startingNet.Some? {
      LegTrace(w, i, true, a.closeNet, a.raises, a.now, left);
      SubmitCalls(w.book, Leg(w.flows[i], true), Env(a.closeNet, a.now, a.raises, left));
      KeysDiffer(w.flows[i].id, w.flows[i].id);
    }
  }

  lemma StartedSendsNoEntry(w: World, i: nat, a: Answers, left: nat)
    requires i < |w.flows|
    ensures NoEntry(w.book, FromStarted(w, i, a, left).world.book, w.flows[i].id)
  {
    hide FromQueried, EntryKey;
    var f := w.flows[i];
    var asked := w.(book := w.book.(trace := w.book.trace + [Asked(f.id, a.netAtStart)]));
    assert NoEntry(w.book, asked.book, f.id);
    if a.netAtStart != 0 {
      var r := WriteFlow(asked, i, f.(state := PositionQueried, startingNet := Some(a.netAtStart),
          side := ClosingSide(a.netAtStart)), left);
      if r.alive {
        QueriedSendsNoEntry(r.world, i, a, r.left);
        NoEntryJoins(w.book, asked.book, FromStarted(w, i, a, left).world.book, f.id);
      }
    }
  }

  /** From a confirmed flat position the entry is sent without asking. */
  lemma FlatAsksNothing(w: World, i: nat, a: Answers, left: nat)
    requires i < |w.flows|
    ensures AsksNothing(w.book, FromFlat(w, i, a, left).world.book)
  {
    hide SubmitLeg, Submit;
    if w.flows[i].side.Some? && w.flows[i].startingNet.Some? {
      LegTrace(w, i, false, a.entryNet, a.raises, a.now, left);
      SubmitAsksNothing(w.book, Leg(w.flows[i], false), Env(a.entryNet, a.now, a.raises, left));
    }
  }

  lemma FlatStory(w: World, i: nat, a: Answers, left: nat)
    requires i < |w.flows| && w.flows[i].state == FlatConfirmed
    ensures Story(w.book, FromFlat(w, i, a, left).world.book, w.flows[i])
  {
    hide FromFlat, IsEntryOf;
    FlatAsksNothing(w, i, a, left);
  }

  /** From a filled close the query comes first. */
  lemma CloseFilledStory(w: World, i: nat, a: Answers, left: nat, f: Flow)
    requires i < |w.flows| && f.id == w.flows[i].id && f.state != FlatConfirmed
    ensures Story(w.book, FromCloseFilled(w, i, a, left).world.book, f)
  {
    var g := w.flows[i];
    var active := HasActive(w.book.orders, g.slot);
    var e := Queried(g.id, a.netAtFlat, active, a.sessionHealthy, a.dataHealthy);
    var asked := w.(book := w.book.(trace := w.book.trace + [e]));
    var after := FromCloseFilled(w, i, a, left).world.book;
    if FlatNow(a, active) {
      var r := WriteFlow(asked, i, g.(state := FlatConfirmed), left);
      FlatAsksNothing(r.world, i, a, r.left);
      assert asked.book.trace <= after.trace by {
        hide FromFlat;
      }
      hide FromFlat, FromCloseFilled, IsEntryOf;
      assert after.trace[|w.book.trace|] == asked.book.trace[|w.book.trace|] == Queried(f.id, 0, false, true, true);
      assert IsEntryOf(Queried(f.id, 0, false, true, true), f.id) == false by {
        assert !Queried(f.id, 0, false, true, true).Called?;
      }
    } else {
      assert after == asked.book;
      NoEntryIsStory(w.book, after, f);
    }
  }

  lemma AdvanceStory(w: World, i: nat, a: Answers, left: nat)
    requires i < |w.flows|
    ensures Story(w.book, Advance(w, i, a, left).world.book, w.flows[i])
  {
    hide FromStarted, FromQueried, FromCloseFilled, FromFlat, Story, NoEntry;
    match w.flows[i].state
    case Started =>
      StartedSendsNoEntry(w, i, a, left);
      NoEntryIsStory(w.book, FromStarted(w, i, a, left).world.book, w.flows[i]);
    case PositionQueried =>
      QueriedSendsNoEntry(w, i, a, left);
      NoEntryIsStory(w.book, FromQueried(w, i, a, left).world.book, w.flows[i]);
    case CloseFilled => CloseFilledStory(w, i, a, left, w.flows[i]);
    case FlatConfirmed => FlatStory(w, i, a, left);
    case _ => SameStory(w.book, w.flows[i]);
  }

  lemma SameStory(b: Book, f: Flow)
    ensures Story(b, b, f)
  {
  }

  lemma CloseIsFilledStory(w: World, i: nat, a: Answers, left: nat)
    requires i < |w.flows|
    ensures Story(w.book, CloseIsFilled(w, i, a, left).world.book, w.flows[i])
  {
    SameStory(w.book, w.flows[i]);
    var f := w.flows[i].(state := CloseFilled);
    var r := WriteFlow(w, i, f, left);
    if r.alive {
      assert w.flows[i].state == CloseSubmitted && r.world.flows[i] == f;
      hide FromCloseFilled, Story;
      CloseFilledStory(r.world, i, a, r.left, w.flows[i]);
    }
  }

  lemma ResumeStory(w: World, i: nat, a: Answers, left: nat)
    requires i < |w.flows|
    ensures Story(w.book, ResumeOne(w, i, a, left).world.book, w.flows[i])
  {
    SameStory(w.book, w.flows[i]);
    hide Advance, CloseIsFilled, Story;
    AdvanceStory(w, i, a, left);
    var f := w.flows[i];
    if f.state == CloseSubmitted && f.closeId.Some? {
      CloseIsFilledStory(w.(tracked := w.tracked[f.closeId.value := i]), i, a, left);
    }
  }

  // ---- a whole step ----

  lemma StoryAround(b: Book, c: Book, d: Book, e: Book, f: Flow)
    requires Silent(b, c, f.id) && Story(c, d, f) && Silent(d, e, f.id)
    ensures Story(b, e, f)
  {
    assert forall k | |b.trace| <= k < |c.trace| :: e.trace[k] == c.trace[k];
    assert forall k | |b.trace| <= k < |c.trace| :: NotFor(c.trace[k], f.id);
    assert forall k | |d.trace| <= k < |e.trace| :: NotFor(e.trace[k], f.id);
    forall j | |b.trace| <= j < |e.trace| && IsEntryOf(e.trace[j], f.id)
      ensures AskedWithin(b, e, f.id, j) <==> f.state != FlatConfirmed
    {
      assert |c.trace| <= j < |d.trace|;
      assert e.trace[j] == d.trace[j];
      AskedMoves(b, c, d, e, f.id, j);
    }
  }

  lemma AskedMoves(b: Book, c: Book, d: Book, e: Book, id: string, j: int)
    requires Silent(b, c, id) && c.trace <= d.trace <= e.trace && |c.trace| <= j < |d.trace|
    ensures AskedWithin(b, e, id, j) <==> AskedWithin(c, d, id, j)
  {
    if AskedWithin(b, e, id, j) {
      assert forall k | |b.trace| <= k < |c.trace| :: e.trace[k] == c.trace[k];
      assert forall k | |b.trace| <= k < |c.trace| :: NotFor(c.trace[k], id);
      var m :| |b.trace| <= m < j && e.trace[m] == Queried(id, 0, false, true, true);
      assert |c.trace| <= m && d.trace[m] == e.trace[m];
    }
    if AskedWithin(c, d, id, j) {
      var m :| |c.trace| <= m < j && d.trace[m] == Queried(id, 0, false, true, true);
      assert e.trace[m] == d.trace[m];
    }
  }

  ghost predicate DistinctIds(w: World) {
    forall i, k | 0 <= i < |w.flows| && 0 <= k < |w.flows| && i != k :: w.flows[i].id != w.flows[k].id
  }

  lemma {:induction false} ResumeBelow(w: World, n: nat, answers: nat -> Answers, left: nat, i: nat)
    requires DistinctIds(w) && n <= i < |w.flows|
    ensures Untouched(w, ResumeUpTo(w, n, answers, left).world, i)
  {
    hide ResumeOne, Silent;
    if n == 0 {
      SilentItself(w.book, w.flows[i].id);
    } else {
      ResumeBelow(w, n - 1, answers, left, i);
      var before := ResumeUpTo(w, n - 1, answers, left);
      if before.alive {
        ResumeLeaves(before.world, n - 1, answers(n - 1), before.left, i);
        UntouchedJoins(w, before.world, ResumeUpTo(w, n, answers, left).world, i);
      }
    }
  }

  lemma {:induction false} ResumeAllStory(w: World, n: nat, answers: nat -> Answers, left: nat, i: nat)
    requires DistinctIds(w) && i < n <= |w.flows|
    ensures Story(w.book, ResumeUpTo(w, n, answers, left).world.book, w.flows[i])
  {
    hide ResumeOne, Silent, Story;
    var id, b := w.flows[i].id, w.book;
    var before := ResumeUpTo(w, n - 1, answers, left);
    var after := ResumeUpTo(w, n, answers, left);
    SilentItself(b, id);
    SilentItself(after.world.book, id);
    if n - 1 == i {
      ResumeBelow(w, i, answers, left, i);
      SameStory(before.world.book, w.flows[i]);
      if before.alive {
        ResumeStory(before.world, i, answers(i), before.left);
      }
      StoryAround(b, before.world.book, after.world.book, after.world.book, w.flows[i]);
    } else {
      ResumeAllStory(w, n - 1, answers, left, i);
      if before.alive {
        ResumeLeaves(before.world, n - 1, answers(n - 1), before.left, i);
        StoryAround(b, b, before.world.book, after.world.book, w.flows[i]);
      }
    }
  }

  lemma TransitionStory(w: World, order: nat, to: Status, a: Answers, left: nat, i: nat)
    requires DistinctIds(w) && i < |w.flows|
    ensures Story(w.book, OnTransition(w, order, to, a, left).world.book, w.flows[i])
  {
    SameStory(w.book, w.flows[i]);
    SilentItself(w.book, w.flows[i].id);
    hide CloseIsFilled, Story, Silent;
    if Follows(w, order) {
      var k := w.tracked[order];
      if k == i {
        CloseIsFilledStory(w, i, a, left);
      } else {
        CloseFilledLeaves(w, k, a, left, i);
        SilentIsStory(w.book, CloseIsFilled(w, k, a, left).world.book, w.flows[i]);
      }
    }
  }

  lemma SilentIsStory(b: Book, c: Book, f: Flow)
    requires Silent(b, c, f.id)
    ensures Story(b, c, f)
  {
    assert forall j | |b.trace| <= j < |c.trace| :: NotFor(c.trace[j], f.id);
    NoEntryIsStory(b, c, f);
  }

  lemma StepStory(w: World, s: Step, i: nat)
    requires WorldOk(w) && Allowed(w, s) && i < |w.flows|
    ensures Story(w.book, Next(w, s).book, w.flows[i])
  {
    assert DistinctIds(w) by {
      hide ManagerProofs.BookOk, Accounted;
      forall j, k | 0 <= j < |w.flows| && 0 <= k < |w.flows| && j != k ensures w.flows[j].id != w.flows[k].id {
        assert if k < j then w.flows[k].id != w.flows[j].id else w.flows[j].id != w.flows[k].id;
      }
    }
    SameStory(w.book, w.flows[i]);
    hide WorldOk, StartReversal, OnTransition, ResumeUpTo, Reloaded, ManagerProofs.Step, CloseKey, EntryKey, Silent,
        Story;
    match s
    case Elsewhere(op) =>
      ElsewhereLeaves(w, op, i);
      SilentIsStory(w.book, Next(w, s).book, w.flows[i]);
    case Start(reverse, id, trigger, slot, tooClose, a, left) =>
      StartLeaves(w, reverse, id, trigger, slot, tooClose, a, left, i);
      SilentIsStory(w.book, Next(w, s).book, w.flows[i]);
    case Transition(order, to, a, left) => TransitionStory(w, order, to, a, left, i);
    case Resume(answers, left) => ResumeAllStory(w.(tracked := Reloaded(w.flows)), |w.flows|, answers, left, i);
    case _ =>
  }

  /** When a step calls the entry of a workflow, the query that confirmed the flat position lies in that same
      step if and only if the workflow was not already stored as confirmed before it. */
  lemma EntryFollowsItsQuery(w: World, s: Step, i: nat, j: nat)
    requires WorldOk(w) && Allowed(w, s) && i < |w.flows|
    requires |w.book.trace| <= j < |Next(w, s).book.trace| && IsEntryOf(Next(w, s).book.trace[j], w.flows[i].id)
    ensures AskedWithin(w.book, Next(w, s).book, w.flows[i].id, j) <==> w.flows[i].state != FlatConfirmed
  {
    hide WorldOk, Allowed, Next, IsEntryOf, AskedWithin;
    StepStory(w, s, i);
  }
}
