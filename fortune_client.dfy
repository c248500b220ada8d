/**
 * The decision logic of the single-page client: which admin row is expanded,
 * which time a visit record is dated by, whether that time is today, the
 * admin list of today's visits (newest first, with their count), and the
 * number of days left until Christmas. The current time is a parameter, in
 * milliseconds since 1970 (see Calendar for the time-zone assumption).
 */
module FortuneClient {
  import opened Wrappers
  import opened Calendar
  import Sorting
  import ObjectId

  /**
   * A visit record as the admin page receives it: the ObjectId string and the
   * two optional timestamps, already read as millisecond counts.
   */
  datatype VisitDoc = VisitDoc(id: string, createdAt: Option<int>, updatedAt: Option<int>)

  /** The admin page's `stats` state. */
  datatype AdminStats = AdminStats(count: nat, todaysVisits: seq<VisitDoc>)

  /** `toggleRow`'s new value of `expandedRow` (None is null). */
  function Toggled(expanded: Option<string>, id: string): (r: Option<string>)
    ensures r.None? <==> expanded == Some(id)
    ensures r.Some? ==> r == Some(id)
  {
    if expanded == Some(id) then None else Some(id)
  }

  /** Clicking the same row twice gets back to the start exactly when no other row was open. */
  lemma ToggleTwice(expanded: Option<string>, id: string)
    ensures Toggled(Toggled(expanded, id), id) == expanded <==> (expanded.None? || expanded == Some(id))
    ensures expanded.Some? && expanded != Some(id) ==> Toggled(Toggled(expanded, id), id).None?
  {
  }

  /** The admin table's expanded-row state. */
  class AdminTable {
    var expandedRow: Option<string>

    constructor ()
      ensures expandedRow.None?
    {
      expandedRow := None;
    }

    /** `toggleRow(id)`: close the row if it is the open one, otherwise open it. */
    method ToggleRow(id: string)
      modifies this
      ensures expandedRow == Toggled(old(expandedRow), id)
      ensures expandedRow.None? <==> old(expandedRow) == Some(id)
    {
      if expandedRow == Some(id) {
        expandedRow := None;
      } else {
        expandedRow := Some(id);
      }
    }
  }

  /**
   * `getRealDate`: `updatedAt` if present, else `createdAt` if present, else
   * the ObjectId's creation second times 1000. None is an Invalid Date.
   */
  function RealDate(v: VisitDoc): (r: Option<int>)
    ensures v.updatedAt.Some? ==> r == v.updatedAt
    ensures v.updatedAt.None? && v.createdAt.Some? ==> r == v.createdAt
    ensures v.updatedAt.None? && v.createdAt.None? ==> r == ObjectId.TimestampMs(v.id)
  {
    if v.updatedAt.Some? then v.updatedAt
    else if v.createdAt.Some? then v.createdAt
    else ObjectId.TimestampMs(v.id)
  }

  /** A record without timestamps is dated by the creation second in its ObjectId. */
  lemma RealDateFromObjectId(v: VisitDoc, t: nat, rest: string)
    requires v.updatedAt.None? && v.createdAt.None?
    requires t < ObjectId.Hex8Limit && v.id == ObjectId.ToHex(t, 8) + rest
    ensures RealDate(v) == Some(t * 1000)
  {
    ObjectId.TimestampRoundTrip(t, rest);
  }

  /** `isToday`: same day of the month, month and year as now; an Invalid Date never is. */
  predicate IsToday(someDate: Option<int>, now: int)
    ensures IsToday(someDate, now) <==> someDate.Some? && DateOf(someDate.value) == DateOf(now)
  {
    someDate.Some? &&
    var d, t := DateOf(someDate.value), DateOf(now);
    d.day == t.day && d.month == t.month && d.year == t.year
  }

  /** A moment is today exactly when it lies between today's midnight and the next one. */
  lemma IsTodayWithinDay(ms: int, now: int)
    ensures IsToday(Some(ms), now) <==> (now / MsPerDay) * MsPerDay <= ms < (now / MsPerDay) * MsPerDay + MsPerDay
  {
    var start := (now / MsPerDay) * MsPerDay;
    if IsToday(Some(ms), now) {
      assert DateOf(ms) == DateOf(now);
      assert ms / MsPerDay == now / MsPerDay;
      MomentSplit(ms);
    }
    if start <= ms < start + MsPerDay {
      SameDayBucket(ms, now / MsPerDay);
    }
  }

  lemma SameDayBucket(ms: int, n: int)
    requires n * MsPerDay <= ms < n * MsPerDay + MsPerDay
    ensures ms / MsPerDay == n
  {
    var q, r := ms / MsPerDay, ms % MsPerDay;
    assert ms == q * MsPerDay + r && 0 <= r < MsPerDay;
    assert (q - n) * MsPerDay == ms - r - n * MsPerDay;
  }

  /** The sort key of the admin list: getRealDate of a record that has a valid date. */
  function RealTime(v: VisitDoc): int
  {
    match RealDate(v)
    case Some(t) => t
    case None => 0
  }

  /**
   * The admin pipeline: keep the records dated today, sort them by getRealDate,
   * newest first, and count them.
   */
  function TodaysStats(allVisits: seq<VisitDoc>, now: int): (r: AdminStats)
    ensures r.count == |r.todaysVisits|
    ensures forall v :: v in r.todaysVisits ==> IsToday(RealDate(v), now)
    ensures multiset(r.todaysVisits) <= multiset(allVisits)
    ensures forall v :: v in allVisits && IsToday(RealDate(v), now) ==>
              multiset(r.todaysVisits)[v] == multiset(allVisits)[v]
    ensures forall i, j :: 0 <= i < j < |r.todaysVisits| ==>
              RealDate(r.todaysVisits[i]).Some? && RealDate(r.todaysVisits[j]).Some? &&
              RealDate(r.todaysVisits[i]).value >= RealDate(r.todaysVisits[j]).value
  {
    var filteredToday := Sorting.Filter(allVisits, (v: VisitDoc) => IsToday(RealDate(v), now));
    var sortedVisits := Sorting.SortDesc(filteredToday, RealTime);
    assert forall v :: v in sortedVisits ==> IsToday(RealDate(v), now) by {
      forall v | v in sortedVisits ensures IsToday(RealDate(v), now) {
        assert v in multiset(sortedVisits);
        assert v in filteredToday;
      }
    }
    assert forall i :: 0 <= i < |sortedVisits| ==> RealDate(sortedVisits[i]) == Some(RealTime(sortedVisits[i])) by {
      forall i | 0 <= i < |sortedVisits| ensures RealDate(sortedVisits[i]) == Some(RealTime(sortedVisits[i])) {
        assert sortedVisits[i] in sortedVisits;
      }
    }
    AdminStats(|sortedVisits|, sortedVisits)
  }

  /** After December 25 the countdown moves on to next year's Christmas. */
  predicate AfterChristmas(today: Date)
  {
    today.month == December && today.day > 25
  }

  /**
   * A date on which `new Date(year, 11, 25)` reads `year` as a two-digit year
   * (0 to 99, meaning 1900 to 1999) and no roll-over corrects it.
   */
  predicate TwoDigitYear(today: Date)
  {
    0 <= today.year <= 99 && !AfterChristmas(today)
  }

  /**
   * The year of the Christmas counted down to: `new Date(year, 11, 25)`, then
   * `setFullYear(year + 1)` (which takes the year as written) after December 25.
   */
  function ChristmasYear(today: Date): (y: int)
    ensures AfterChristmas(today) ==> y == today.year + 1
    ensures !AfterChristmas(today) ==> y == ConstructorYear(today.year)
    ensures !TwoDigitYear(today) ==> (y == today.year + 1 <==> AfterChristmas(today))
    ensures !TwoDigitYear(today) && !AfterChristmas(today) ==> y == today.year
  {
    if AfterChristmas(today) then today.year + 1 else ConstructorYear(today.year)
  }

  /** Midnight of the Christmas counted down to, in milliseconds. */
  function ChristmasMs(today: Date): int
  {
    DayNumber(Date(ChristmasYear(today), December, 25)) * MsPerDay
  }

  /**
   * `getDaysUntilChristmas`: the milliseconds from now to midnight of December 25
   * of ChristmasYear, divided by one day and rounded up. None is NaN, the result
   * when that midnight lies outside the range of a Date. `now` is a reading of
   * `new Date()`, which always lies in that range.
   */
  function DaysUntilChristmas(now: int): (days: Option<int>)
    requires InDateRange(now)
    ensures days.None? <==> !InDateRange(ChristmasMs(DateOf(now)))
    ensures days.Some? ==>
              days.value == DayNumber(Date(ChristmasYear(DateOf(now)), December, 25)) - DayNumber(DateOf(now))
    ensures days.Some? && !TwoDigitYear(DateOf(now)) ==>
              0 <= days.value <= 365 &&
              (days.value == 0 <==> DateOf(now).month == December && DateOf(now).day == 25)
    ensures days.Some? && TwoDigitYear(DateOf(now)) ==> days.value > 365
  {
    var today := DateOf(now);
    var christmas := Date(ChristmasYear(today), December, 25);
    if !InDateRange(ChristmasMs(today)) then None
    else
      var diffTime := DayNumber(christmas) * MsPerDay - now;
      var days := CeilDiv(diffTime, MsPerDay);
      MomentSplit(now);
      CeilOfWholeDays(days, DayNumber(christmas) - DayNumber(today), now % MsPerDay);
      if TwoDigitYear(today) then
        TwoDigitYearDistance(today);
        Some(days)
      else
        ChristmasDistance(today);
        Some(days)
  }

  /** Rounding up (k days less r milliseconds, 0 <= r < one day) gives k. */
  lemma CeilOfWholeDays(days: int, k: int, r: int)
    requires 0 <= r < MsPerDay
    requires (days - 1) * MsPerDay < k * MsPerDay - r <= days * MsPerDay
    ensures days == k
  {
    assert (days - k) * MsPerDay == days * MsPerDay - k * MsPerDay;
  }

  /** From a date outside two-digit years, Christmas is 0 to 365 days ahead, and 0 days only on the 25th. */
  lemma ChristmasDistance(today: Date)
    requires Valid(today) && !TwoDigitYear(today)
    ensures var k := DayNumber(Date(ChristmasYear(today), December, 25)) - DayNumber(today);
            0 <= k <= 365 && (k == 0 <==> today.month == December && today.day == 25)
  {
    var y := today.year;
    if ChristmasYear(today) == y + 1 {
      YearStep(y);
    } else if today.month < December {
      MonthStep(y, today.month);
      assert DaysBeforeMonth(y, today.month + 1) <= DaysBeforeMonth(y, December);
    }
  }

  /** In a two-digit year before December 26, the countdown runs to a Christmas of 1900 to 1999. */
  lemma TwoDigitYearDistance(today: Date)
    requires Valid(today) && TwoDigitYear(today)
    ensures DayNumber(Date(ChristmasYear(today), December, 25)) - DayNumber(today) > 365
  {
    YearsSpan(today.year, 1900 + today.year);
    MonthsAdvance(today.year, today.month + 1, 12);
    MonthStep(today.year, today.month);
  }
}
