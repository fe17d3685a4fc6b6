/** Which reports and fills of a delivered list are taken, read off their numbers and sizes, and what
    reconciliation and the timeout sweep make of them. */
module ReconcileProofs {
  import opened Domain
  import opened OrderModel
  import opened OrderProofs
  import opened ManagerModel
  import opened ManagerProofs
  import opened OrderManagement

  // ---- fills ----

  predicate Newer(last: Option<int>, s: int) {
    last.None? || s > last.value
  }

  function LastSeq(last: Option<int>, taken: seq<Execution>): Option<int> {
    if taken == [] then last else Some(taken[|taken| - 1].seq_)
  }

  /** Of a list of fills for a live order, those that count: newer than the last that counted, and no larger than
      what is still open. */
  function Taken(last: Option<int>, open: int, fills: seq<Execution>): seq<Execution> {
    if fills == [] then []
    else
      var taken, f := Taken(last, open, fills[..|fills| - 1]), fills[|fills| - 1];
      if Newer(LastSeq(last, taken), f.seq_) && f.lots <= open - SumLots(taken) then taken + [f] else taken
  }

  /** Average times quantity. */
  function Paid(r: Intent): real {
    if r.avg.Some? then r.avg.value * r.filled as real else 0.0
  }

  /** What is stored after the taken fills of a live order. */
  ghost predicate FilledBy(r: Intent, taken: seq<Execution>, s: Intent) {
    && s.filled == r.filled + SumLots(taken) && s.lastSeq == LastSeq(r.lastSeq, taken)
    && s.status == (if taken == [] then r.status else if s.filled == s.lots then Filled else PartiallyFilled)
    && s.updatedAt == (if taken == [] then r.updatedAt else taken[|taken| - 1].at)
    && Paid(s) == Paid(r) + Notional(taken)
    && s == r.(filled := s.filled, lastSeq := s.lastSeq, status := s.status, updatedAt := s.updatedAt, avg := s.avg)
  }

  lemma TakenFits(last: Option<int>, open: int, fills: seq<Execution>)
    requires open >= 0
    ensures 0 <= SumLots(Taken(last, open, fills)) <= open
  {
  }

  lemma FillStep(r: Intent, taken: seq<Execution>, s: Intent, f: Execution)
    requires r.Valid() && s.Valid() && FilledBy(r, taken, s) && !Terminal(r.status) && r.filled < r.lots
    ensures var fits := Newer(LastSeq(r.lastSeq, taken), f.seq_) && f.lots <= r.Remaining() - SumLots(taken);
            && ApplyFill(s, f).Applied? == fits
            && (fits ==> FilledBy(r, taken + [f], ApplyFill(s, f).record))
  {
    hide WeightedAverage, Paid, Notional, SumLots;
    var fits := Newer(LastSeq(r.lastSeq, taken), f.seq_) && f.lots <= r.Remaining() - SumLots(taken);
    if fits {
      OneMore(taken, f);
      PaidMore(s, f);
    }
  }

  lemma OneMore(taken: seq<Execution>, f: Execution)
    ensures SumLots(taken + [f]) == SumLots(taken) + f.lots
    ensures Notional(taken + [f]) == Notional(taken) + f.price * f.lots as real
  {
    var all := taken + [f];
    assert all[..|all| - 1] == taken;
  }

  lemma PaidMore(s: Intent, f: Execution)
    requires s.Valid() && ApplyFill(s, f).Applied?
    ensures Paid(ApplyFill(s, f).record) == Paid(s) + f.price * f.lots as real
  {
    AverageTimesFilled(s, f);
    hide WeightedAverage;
  }

  /** The fills that count, whoever delivers them: the filled lots are the old ones plus theirs, and the order is
      filled exactly when nothing is open any more. */
  lemma {:induction false} FillsAreTaken(r: Intent, fills: seq<Execution>)
    requires r.Valid() && !Terminal(r.status) && r.filled < r.lots
    ensures var taken := Taken(r.lastSeq, r.Remaining(), fills);
            FilledBy(r, taken, ReplayFills(r, fills).record) && (ReplayFills(r, fills).any <==> taken != [])
  {
    hide ApplyFill;
    if fills != [] {
      var n := |fills| - 1;
      FillsAreTaken(r, fills[..n]);
      FillStep(r, Taken(r.lastSeq, r.Remaining(), fills[..n]), ReplayFills(r, fills[..n]).record, fills[n]);
      hide FilledBy;
    } else {
      assert SumLots([]) == 0 && Notional([]) == 0.0;
    }
  }

  lemma {:induction false} TerminalTakesNone(r: Intent, fills: seq<Execution>)
    requires r.Valid() && Terminal(r.status)
    ensures ReplayFills(r, fills) == Replayed(r, false)
  {
    if fills != [] {
      TerminalTakesNone(r, fills[..|fills| - 1]);
    }
  }

  // ---- reports ----

  function StatusAfter(s: Status, taken: seq<Report>): Status {
    if taken == [] then s else taken[|taken| - 1].status
  }

  function SeqAfter(last: Option<int>, taken: seq<Report>): Option<int> {
    if taken == [] then last else Some(taken[|taken| - 1].seq_)
  }

  /** Of a list of reports, those that count: newer than the last that counted, and a legal move from it. */
  function TakenReports(status: Status, last: Option<int>, reports: seq<Report>): seq<Report> {
    if reports == [] then []
    else
      var taken, p := TakenReports(status, last, reports[..|reports| - 1]), reports[|reports| - 1];
      if Newer(SeqAfter(last, taken), p.seq_) && CanTransition(StatusAfter(status, taken), p.status) then taken + [p]
          else taken
  }

  lemma {:induction false} ReportsAreTaken(r: Intent, reports: seq<Report>)
    ensures var taken, a := TakenReports(r.status, r.lastSeq, reports), ReplayReports(r, reports);
            && (a.any <==> taken != [])
            && a.record == r.(status := StatusAfter(r.status, taken), lastSeq := SeqAfter(r.lastSeq, taken),
                              updatedAt := if taken == [] then r.updatedAt else taken[|taken| - 1].at)
  {
    if reports != [] {
      ReportsAreTaken(r, reports[..|reports| - 1]);
      hide CanTransition;
    }
  }

  // ---- reconciliation ----

  /** The taken reports and, after them, the taken fills of a query's answer. */
  function NewReports(r: Intent, reports: seq<Report>): seq<Report> {
    TakenReports(r.status, r.lastSeq, reports)
  }

  function NewFills(r: Intent, reports: seq<Report>, fills: seq<Execution>): seq<Execution> {
    var taken := NewReports(r, reports);
    if Terminal(StatusAfter(r.status, taken)) then [] else Taken(SeqAfter(r.lastSeq, taken), r.Remaining(), fills)
  }

  /** A reconciled row: parked exactly when nothing was new; otherwise every new report, then every new fill. */
  lemma ReconciledTakesAll(r: Intent, reports: seq<Report>, fills: seq<Execution>, now: int)
    requires RowOk(r) && r.Active()
    ensures ReplayReports(r, reports).record.Valid()
    ensures var p, q, s := NewReports(r, reports), NewFills(r, reports, fills), Reconciled(r, reports, fills, now);
            && s.filled == r.filled + SumLots(q)
            && (p == [] && q == [] ==> s == r.(status := Unknown, updatedAt := now))
            && (q == [] && p != [] ==>
                  && s.status == p[|p| - 1].status && s.updatedAt == p[|p| - 1].at
                  && s.lastSeq == Some(p[|p| - 1].seq_))
            && (q != [] ==> s.status == (if s.filled == s.lots then Filled else PartiallyFilled)
                            && s.updatedAt == q[|q| - 1].at && s.lastSeq == Some(q[|q| - 1].seq_))
  {
    hide ReplayReports, ReplayFills, Taken, TakenReports, SumLots, Notional, Paid, Later;
    ReportsAreLater(r, reports);
    ReportsAreTaken(r, reports);
    EmptySum();
    var a := ReplayReports(r, reports).record;
    RowStays(a, fills);
    if Terminal(a.status) {
      TerminalTakesNone(a, fills);
    } else {
      FillsAreTaken(a, fills);
    }
  }

  lemma EmptySum()
    ensures SumLots([]) == 0
  {
  }

  /** Nothing new leaves the row as it was. */
  lemma RowStays(r: Intent, fills: seq<Execution>)
    requires RowOk(r)
    ensures !ReplayFills(r, fills).any ==> ReplayFills(r, fills).record == r
  {
    FillsAreLater(r, fills);
  }

  /** The manager stores that row, and no other changes. */
  lemma ReconcileStores(b: Book, id: nat, reports: seq<Report>, fills: seq<Execution>, now: int)
    requires id < |b.orders| && RowOk(b.orders[id]) && b.orders[id].Active()
    ensures ReplayReports(b.orders[id], reports).record.Valid()
    ensures var s := Reconciled(b.orders[id], reports, fills, now);
            Reconcile(b, id, reports, fills, now) == Book(b.orders[id := s], b.trace + [Wrote(id, s.status)])
  {
    ReportsAreLater(b.orders[id], reports);
    hide ReplayReports, ReplayFills;
  }

  function Delivered(reports: seq<Report>, fills: seq<Execution>): seq<Event> {
    seq(|reports|, i requires 0 <= i < |reports| => Reported(reports[i], reports[i].at))
    + seq(|fills|, i requires 0 <= i < |fills| => Executed(fills[i], fills[i].at))
  }

  /** No report is illegal when its turn comes. */
  ghost predicate NoneIllegal(r: Intent, reports: seq<Report>) {
    forall i | 0 <= i < |reports| :: !ApplyReport(ReplayReports(r, reports[..i]).record, reports[i]).Illegal?
  }

  lemma {:induction false} ReportsHandled(r: Intent, reports: seq<Report>)
    requires RowOk(r) && NoneIllegal(r, reports)
    ensures HandleAll(r, Delivered(reports, [])) == ReplayReports(r, reports).record
  {
    if reports != [] {
      var n := |reports| - 1;
      assert forall i | 0 <= i < n :: reports[..n][..i] == reports[..i];
      assert reports[..n] == reports[..n][..n];
      ReportsHandled(r, reports[..n]);
      ReportsAreLater(r, reports[..n]);
      var all := Delivered(reports, []);
      assert all[..|all| - 1] == Delivered(reports[..n], []) && all[|all| - 1] == Reported(reports[n], reports[n].at);
      hide ApplyReport, Delivered;
    }
  }

  lemma {:induction false} FillsHandled(r: Intent, reports: seq<Report>, fills: seq<Execution>)
    requires RowOk(r) && ReplayReports(r, reports).record.Valid()
    requires HandleAll(r, Delivered(reports, [])) == ReplayReports(r, reports).record
    ensures HandleAll(r, Delivered(reports, fills)) == ReplayFills(ReplayReports(r, reports).record, fills).record
  {
    if fills != [] {
      var n := |fills| - 1;
      FillsHandled(r, reports, fills[..n]);
      var all := Delivered(reports, fills);
      assert all[..|all| - 1] == Delivered(reports, fills[..n]) && all[|all| - 1] == Executed(fills[n], fills[n].at);
      hide ApplyFill, Delivered, ReplayReports;
    }
  }

  /** Reconciliation is delivery: when no report is illegal in its turn and anything is new, the reconciled row is
      the one that delivering all the reports and then all the fills would leave. */
  lemma ReconciledIsDelivered(r: Intent, reports: seq<Report>, fills: seq<Execution>, now: int)
    requires RowOk(r) && r.Active() && NoneIllegal(r, reports)
    requires NewReports(r, reports) != [] || NewFills(r, reports, fills) != []
    ensures ReplayReports(r, reports).record.Valid()
    ensures Reconciled(r, reports, fills, now) == HandleAll(r, Delivered(reports, fills))
  {
    ReportsAreLater(r, reports);
    ReportsHandled(r, reports);
    FillsHandled(r, reports, fills);
    ReportsAreTaken(r, reports);
    var a := ReplayReports(r, reports);
    if Terminal(a.record.status) {
      TerminalTakesNone(a.record, fills);
    } else {
      FillsAreTaken(a.record, fills);
    }
    hide ReplayReports, ReplayFills, Taken, TakenReports, HandleAll, Delivered, NoneIllegal;
  }

  // ---- delivery one by one ----

  /** Fills delivered one by one are taken just so. */
  lemma ExecutionsAreTaken(r: Intent, fills: seq<Execution>)
    requires RowOk(r) && r.Active()
    ensures FilledBy(r, Taken(r.lastSeq, r.Remaining(), fills), HandleAll(r, Delivered([], fills)))
  {
    assert Delivered([], []) == [];
    assert HandleAll(r, []) == r && ReplayReports(r, []).record == r;
    FillsHandled(r, [], fills);
    FillsAreTaken(r, fills);
    hide ReplayFills, Taken, FilledBy, HandleAll, Delivered;
  }

  /** In order and within what is open, every fill is taken. */
  lemma {:induction false} GoodFillsAllCount(last: Option<int>, open: int, fills: seq<Execution>)
    requires forall i, j | 0 <= i < j < |fills| :: fills[i].seq_ < fills[j].seq_
    requires fills != [] ==> Newer(last, fills[0].seq_)
    requires SumLots(fills) <= open
    ensures Taken(last, open, fills) == fills
  {
    if fills != [] {
      var n := |fills| - 1;
      GoodFillsAllCount(last, open, fills[..n]);
      assert fills == fills[..n] + [fills[n]];
    }
  }

  // ---- the sweep ----

  /** The timeout sweep, row by row: an overdue order is parked and then takes what the broker answers for it; any
      other order is left alone. */
  lemma {:induction false} SweepRow(b: Book, now: int, timeout: int, answers: nat -> Answer, n: nat, id: nat)
    requires (forall i | 0 <= i < |b.orders| :: RowOk(b.orders[i])) && n <= |b.orders| && id < |b.orders|
    ensures var parked := b.orders[id].(status := Unknown, updatedAt := now);
            && (Overdue(b, id, now, timeout) ==> ReplayReports(parked, answers(id).reports).record.Valid())
            && |Sweep(b, now, timeout, answers, n).orders| == |b.orders|
            && Sweep(b, now, timeout, answers, n).orders[id]
               == if id < n && Overdue(b, id, now, timeout)
                  then Reconciled(parked, answers(id).reports, answers(id).fills, now) else b.orders[id]
    decreases n
  {
    hide Reconcile, ReplayReports, ReplayFills, Reconciled;
    if Overdue(b, id, now, timeout) {
      ReportsAreLater(b.orders[id].(status := Unknown, updatedAt := now), answers(id).reports);
    }
    if n > 0 {
      SweepRow(b, now, timeout, answers, n - 1, id);
      SweepRow(b, now, timeout, answers, n - 1, n - 1);
      var before := Sweep(b, now, timeout, answers, n - 1);
      if Overdue(before, n - 1, now, timeout) {
        var parked := b.orders[n - 1].(status := Unknown, updatedAt := now);
        var timed := TimeOut(before, n - 1, now, timeout);
        assert timed.orders == before.orders[n - 1 := parked];
        ReconcileStores(timed, n - 1, answers(n - 1).reports, answers(n - 1).fills, now);
      }
    }
  }
}
