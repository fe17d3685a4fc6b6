/** When the market is open, read off the clock and the calendar alone. */
module CalendarDays {
  import opened Domain
  import opened CalendarModel
  import opened CalendarProofs

  /** The week: 1970-01-01 was a Thursday, and days follow each other. */
  lemma WeekdayCycles(d: int)
    ensures 0 <= Weekday(d) < 7 && Weekday(0) == 3
    ensures Weekday(d + 1) == if Weekday(d) == 6 then 0 else Weekday(d) + 1
    ensures Weekday(d + 7) == Weekday(d)
  {
  }

  /** A day trades unless it is a holiday or one of the two days before a Monday. */
  lemma TradingDays(cal: Calendar, d: int)
    ensures IsTradingDay(cal, d) <==> d !in cal.holidays && Weekday(d + 1) != 0 && Weekday(d + 2) != 0
    ensures Weekday(d) == 0 <==> (d - 4) % 7 == 0
  {
  }

  /** The clock is within a session that opened on day `d`: of one ending the same day, before its end and before an
      early close of that day; of one crossing midnight, until its end on the next day, early close or not. */
  predicate OpenSince(cal: Calendar, d: int, s: Session, t: int) {
    if s.start < s.end then
      && DateOf(t) == d && s.start <= TimeOfDay(t) < s.end
      && (d in cal.earlyCloses ==> TimeOfDay(t) < cal.earlyCloses[d])
    else (DateOf(t) == d && TimeOfDay(t) >= s.start) || (DateOf(t) == d + 1 && TimeOfDay(t) < s.end)
  }

  lemma WindowIsClock(cal: Calendar, d: int, s: Session, t: int)
    requires TimesOfDay(s)
    ensures In(Window(cal, d, s), t) <==> OpenSince(cal, d, s, t)
  {
    var q, r := DateOf(t), TimeOfDay(t);
    assert t == q * DAY + r && 0 <= r < DAY;
    if q < d {
      assert t < d * DAY;
    } else if q > d + 1 {
      assert t >= (d + 2) * DAY;
    }
  }

  /** Open in the day session, or in the night session of today or of yesterday. */
  ghost predicate DayOpen(cal: Calendar, entry: Entry, d: int, t: int) {
    IsTradingDay(cal, d) && OpenSince(cal, d, entry.day, t)
  }

  ghost predicate NightOpen(cal: Calendar, entry: Entry, d: int, t: int) {
    IsTradingDay(cal, d) && entry.night.Some? && OpenSince(cal, d, entry.night.value, t)
  }

  lemma WithinIsOpen(cal: Calendar, entry: Entry, d: int, k: nat, t: int)
    requires entry.Valid()
    ensures Within(cal, entry, d, k, t) <==>
              (k == 0 && DayOpen(cal, entry, d, t)) || (k == 1 && NightOpen(cal, entry, d, t))
  {
    WindowIsClock(cal, d, entry.day, t);
    if entry.night.Some? {
      WindowIsClock(cal, d, entry.night.value, t);
    }
    hide Window, OpenSince, IsTradingDay;
  }

  /** An instant has a bar exactly when some session of a trading day is open at it; that day is the bar's, and the
      session is the one the bar is labelled with. */
  lemma OpenExactly(cal: Calendar, entry: Entry, t: int)
    requires entry.Valid()
    ensures var r := BoundaryContaining(cal, entry, t);
            && (r.Some? <==> exists d :: DayOpen(cal, entry, d, t) || NightOpen(cal, entry, d, t))
            && (r.Some? ==>
                  var d := r.value.tradingDay;
                  if r.value.session == DaySession then DayOpen(cal, entry, d, t) else NightOpen(cal, entry, d, t))
  {
    ContainingIsComplete(cal, entry, t);
    hide BoundaryContaining, DayOpen, NightOpen, Within;
    var r := BoundaryContaining(cal, entry, t);
    forall d, k: nat | Within(cal, entry, d, k, t) ensures DayOpen(cal, entry, d, t) || NightOpen(cal, entry, d, t) {
      WithinIsOpen(cal, entry, d, k, t);
    }
    forall d | DayOpen(cal, entry, d, t) || NightOpen(cal, entry, d, t) ensures r.Some? {
      WithinIsOpen(cal, entry, d, 0, t);
      WithinIsOpen(cal, entry, d, 1, t);
    }
    if r.Some? {
      var k: nat :| Found(cal, entry, r.value, t, false, k) && Within(cal, entry, r.value.tradingDay, k, t);
      WithinIsOpen(cal, entry, r.value.tradingDay, k, t);
    }
  }
}
