/**
 * The older analytics module: per-category counts filled in loops, the
 * weekly trend over ISO-week keys with one count per complaint, and its
 * own cache-or-compute dispatcher.
 *
 * Timestamps are whole seconds; a submission date enters as its day
 * number. The ISO week of a day and the text of a UTC instant come from
 * the datetime library and are parameters.
 */
module WeeklyAnalytics {
  import opened Wrappers
  import A = AnalyticsService
  import Text

  // ---------------------------------------------------------------------
  // _iso and _week_key
  // ---------------------------------------------------------------------

  /** A datetime: wall-clock seconds and, when aware, its UTC offset in seconds. */
  datatype DateTime = DateTime(local: int, offset: Option<int>)

  /** The instant a datetime denotes, in UTC seconds; a naive datetime is read as UTC. */
  function UtcSeconds(d: DateTime): (s: int)
    ensures d.offset.None? ==> s == d.local
    ensures d.offset.Some? ==> s + d.offset.value == d.local
  {
    d.local - (if d.offset.Some? then d.offset.value else 0)
  }

  /** _iso: None stays None; otherwise the UTC text of the instant. */
  function Iso(dt: Option<DateTime>, utcText: int -> string): (r: Option<string>)
    ensures dt.None? <==> r.None?
    ensures dt.Some? ==> r == Some(utcText(UtcSeconds(dt.value)))
  {
    if dt.None? then None else Some(utcText(UtcSeconds(dt.value)))
  }

  /** A naive datetime gets the text of the same wall clock read in UTC, and equal instants get equal text. */
  lemma IsoNaiveIsUtc(local: int, d1: DateTime, d2: DateTime, utcText: int -> string)
    requires UtcSeconds(d1) == UtcSeconds(d2)
    ensures Iso(Some(DateTime(local, None)), utcText) == Iso(Some(DateTime(local, Some(0))), utcText)
    ensures Iso(Some(d1), utcText) == Iso(Some(d2), utcText)
  {
    assert UtcSeconds(DateTime(local, None)) == local == UtcSeconds(DateTime(local, Some(0)));
  }

  /** _week_key: "YYYY-Www" of the ISO (year, week) of the day. */
  function WeekKey(day: int, cal: A.Calendar): string
  {
    A.WeekLabel(cal.isoWeek(day))
  }

  /** For an ISO week 1..53 of a year from 0, the key is the year's digits, "-W" and the week in two digits. */
  lemma WeekKeyShape(day: int, cal: A.Calendar)
    requires cal.isoWeek(day).0 >= 0 && 1 <= cal.isoWeek(day).1 <= 53
    ensures var s := WeekKey(day, cal); var yw := cal.isoWeek(day); var n := |Text.NatDigits(yw.0)|;
      && |s| == n + 4 && s[..n] == Text.NatDigits(yw.0) && s[n..n + 2] == "-W"
      && Text.DigitsValue(s[n + 2..]) == yw.1
  {
    A.WeekLabelShape(cal.isoWeek(day));
  }

  // ---------------------------------------------------------------------
  // counts_by_*
  // ---------------------------------------------------------------------

  /**
   * counts_by_urgency, counts_by_department and counts_by_status: a NULL
   * value counts under "Unspecified", and a later row with the same key
   * overwrites an earlier one.
   */
  method CountsBy(rows: seq<A.GroupRow>) returns (result: map<string, int>)
    ensures result == A.KeyedCounts(rows)
  {
    result := map[];
    for i := 0 to |rows|
      invariant result == A.KeyedCounts(rows[..i])
    {
      var key := if rows[i].value.Some? then rows[i].value.value else A.UNSPECIFIED;
      assert rows[..i + 1][..i] == rows[..i];
      result := result[key := rows[i].count];
    }
    assert rows[..|rows|] == rows;
  }

  /** counts_by_district: the district query coalesces a missing name to "Unspecified". */
  function CountsByDistrict(rows: seq<A.GroupRow>): (result: map<string, int>)
    ensures result.Keys == set r | r in rows :: A.KeyOf(r.value)
  {
    A.KeyedCounts(rows)
  }

  // ---------------------------------------------------------------------
  // trends_weekly
  // ---------------------------------------------------------------------

  /** One (id, submission day, urgency, department) row submitted since the cutoff. */
  datatype WeeklyRow = WeeklyRow(id: int, submitted: Option<int>, urgency: Option<string>, department: Option<string>)

  /** A complaint as a trend row of count 1, its submission day as the stamp's day. */
  function AsTrendRow(w: WeeklyRow): A.TrendRow
  {
    A.TrendRow(if w.submitted.Some? then Some(A.Stamp(w.submitted.value, 0, 0)) else None, w.urgency, w.department, 1)
  }

  function AsTrendRows(rows: seq<WeeklyRow>): seq<A.TrendRow>
  {
    seq(|rows|, i requires 0 <= i < |rows| => AsTrendRow(rows[i]))
  }

  /** _week_key of a stamp's day. */
  function WeekKeyOf(cal: A.Calendar): A.Stamp -> string
  {
    (s: A.Stamp) => WeekKey(s.day, cal)
  }

  /** The week keys of the last `weeks` weeks including the current one, oldest first. */
  method WeekKeys(now: A.Now, weeks: int, cal: A.Calendar) returns (keys: seq<string>)
    ensures keys == A.Lookback(A.Span(weeks), A.WeekAt(now, cal))
  {
    keys := A.LookbackLabels(weeks, A.WeekAt(now, cal));
  }

  /**
   * trends_weekly over the rows submitted since the cutoff: every week
   * starts at 0, rows with no date or a week out of range are skipped, and
   * each kept row adds 1 to its week and to its urgency and department
   * buckets.
   */
  method TrendsWeekly(rows: seq<WeeklyRow>, now: A.Now, weeks: int, cal: A.Calendar) returns (t: A.Trend)
    ensures t.periods == A.Lookback(A.Span(weeks), A.WeekAt(now, cal))
    ensures A.IsTrend(t, AsTrendRows(rows), WeekKeyOf(cal), t.periods)
  {
    var keys := WeekKeys(now, weeks, cal);
    var counted := AsTrendRows(rows);
    var slot := A.Slot(WeekKeyOf(cal), keys);
    var total: map<string, int> := map k | k in keys :: 0;
    var byUrgency: map<string, map<string, int>> := map[];
    var byDepartment: map<string, map<string, int>> := map[];
    for i := 0 to |rows|
      invariant A.TotalsAgree(total, counted[..i], slot, keys)
      invariant A.BucketsAgree(byUrgency, counted[..i], slot, A.UrgencyKey, keys)
      invariant A.BucketsAgree(byDepartment, counted[..i], slot, A.DepartmentKey, keys)
    {
      var row := rows[i];
      if row.submitted.None? {
        A.SkipRow(total, byUrgency, counted, i, slot, A.UrgencyKey, keys);
        A.SkipRow(total, byDepartment, counted, i, slot, A.DepartmentKey, keys);
        continue;
      }
      var key := WeekKey(row.submitted.value, cal);
      if key !in total {
        A.SkipRow(total, byUrgency, counted, i, slot, A.UrgencyKey, keys);
        A.SkipRow(total, byDepartment, counted, i, slot, A.DepartmentKey, keys);
        continue;
      }
      total, byUrgency, byDepartment := A.AddRow(total, byUrgency, byDepartment, counted, i, slot, keys, key);
    }
    assert counted[..|rows|] == counted;
    t := A.Trend(keys, total, byUrgency, byDepartment);
  }

  /** The rows counted under period k, in order. */
  function Kept(rs: seq<A.TrendRow>, slot: A.TrendRow -> Option<string>, k: string): seq<A.TrendRow>
  {
    if rs == [] then []
    else Kept(rs[..|rs| - 1], slot, k) + (if slot(rs[|rs| - 1]) == Some(k) then [rs[|rs| - 1]] else [])
  }

  /**
   * With one count per complaint, as trends_weekly adds, a week's total is
   * the number of complaints counted in that week.
   */
  lemma {:induction false} WeeklyTotalCounts(rows: seq<WeeklyRow>, slot: A.TrendRow -> Option<string>, k: string)
    ensures A.Total(AsTrendRows(rows), slot, k) == |Kept(AsTrendRows(rows), slot, k)|
  {
    UnitTotalCounts(AsTrendRows(rows), slot, k);
  }

  lemma {:induction false} UnitTotalCounts(rs: seq<A.TrendRow>, slot: A.TrendRow -> Option<string>, k: string)
    requires forall i :: 0 <= i < |rs| ==> rs[i].count == 1
    ensures A.Total(rs, slot, k) == |Kept(rs, slot, k)|
  {
    if rs != [] {
      UnitTotalCounts(rs[..|rs| - 1], slot, k);
    }
  }

  // ---------------------------------------------------------------------
  // get_cached_or_compute
  // ---------------------------------------------------------------------

  /** The query answers the dispatcher may need. */
  datatype Db = Db(urgency: seq<A.GroupRow>, department: seq<A.GroupRow>, status: seq<A.GroupRow>,
                   district: seq<A.GroupRow>, recent: seq<WeeklyRow>)

  const NAMES: seq<string> := ["by_urgency", "by_department", "by_status", "by_district", "weekly_trends"]

  /**
   * get_cached_or_compute: a non-empty cached object is returned as it is,
   * whatever the name; otherwise the named analytic is computed, and an
   * unknown name is a ValueError.
   */
  method GetCachedOrCompute(name: string, cached: Option<A.CacheFile>, db: Db, now: A.Now, weeks: int,
                            cal: A.Calendar) returns (r: Result<A.Payload, string>)
    ensures cached.Some? && |cached.value| > 0 ==> r == Ok(A.FromCache(cached.value))
    ensures (cached.None? || |cached.value| == 0) ==>
      && (r.Err? <==> name !in NAMES)
      && (r.Err? ==> r.error == "Unknown analytics name: " + name)
      && (name == "by_urgency" ==> r == Ok(A.CountsData(A.KeyedCounts(db.urgency))))
      && (name == "by_department" ==> r == Ok(A.CountsData(A.KeyedCounts(db.department))))
      && (name == "by_status" ==> r == Ok(A.CountsData(A.KeyedCounts(db.status))))
      && (name == "by_district" ==> r == Ok(A.CountsData(A.KeyedCounts(db.district))))
      && (name == "weekly_trends" ==>
            && r.Ok? && r.value.TrendData?
            && r.value.trend.periods == A.Lookback(A.Span(weeks), A.WeekAt(now, cal))
            && A.IsTrend(r.value.trend, AsTrendRows(db.recent), WeekKeyOf(cal), r.value.trend.periods))
  {
    if cached.Some? && |cached.value| > 0 {
      return Ok(A.FromCache(cached.value));
    }
    if name == "by_urgency" {
      var counts := CountsBy(db.urgency);
      return Ok(A.CountsData(counts));
    }
    if name == "by_department" {
      var counts := CountsBy(db.department);
      return Ok(A.CountsData(counts));
    }
    if name == "by_status" {
      var counts := CountsBy(db.status);
      return Ok(A.CountsData(counts));
    }
    if name == "by_district" {
      return Ok(A.CountsData(CountsByDistrict(db.district)));
    }
    if name == "weekly_trends" {
      var t := TrendsWeekly(db.recent, now, weeks, cal);
      return Ok(A.TrendData(t));
    }
    return Err("Unknown analytics name: " + name);
  }
}
