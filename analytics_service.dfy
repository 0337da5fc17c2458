/**
 * The analytics service: per-category complaint counts, the period labels
 * of the daily, weekly and monthly trends, the bucketed trend counts, and
 * the cache-or-compute dispatcher.
 *
 * The database enters as the rows its GROUP BY queries return, the clock
 * as a `Now` reading, and the calendar functions of the datetime library
 * (ISO date text, ISO week of a day) as a `Calendar` of opaque functions.
 */
module AnalyticsService {
  import opened Wrappers
  import Text

  /** The key a NULL category is reported under. */
  const UNSPECIFIED: string := "Unspecified"

  function KeyOf(v: Option<string>): string
  {
    if v.Some? then v.value else UNSPECIFIED
  }

  // ---------------------------------------------------------------------
  // summary_counts
  // ---------------------------------------------------------------------

  /** One (value, count) row of a GROUP BY query. */
  datatype GroupRow = GroupRow(value: Option<string>, count: int)

  /**
   * The dict `{key(v): c for v, c in rows}`: every row's key is present,
   * and the value of a key is the count of the last row with that key.
   */
  function KeyedCounts(rows: seq<GroupRow>): (m: map<string, int>)
    ensures m.Keys == set r | r in rows :: KeyOf(r.value)
    ensures forall i :: 0 <= i < |rows| && LastWithKey(rows, i) ==> m[KeyOf(rows[i].value)] == rows[i].count
  {
    if rows == [] then map[]
    else
      var init := rows[..|rows| - 1];
      var m0 := KeyedCounts(init);
      var last := rows[|rows| - 1];
      LastRowSplit(rows);
      m0[KeyOf(last.value) := last.count]
  }

  /** No later row of `rows` shares row i's key. */
  predicate LastWithKey(rows: seq<GroupRow>, i: int)
    requires 0 <= i < |rows|
  {
    forall j :: i < j < |rows| ==> KeyOf(rows[j].value) != KeyOf(rows[i].value)
  }

  /** A row list is its prefix and its last row, and a last-with-its-key row before the end stays so in the prefix. */
  lemma LastRowSplit(rows: seq<GroupRow>)
    requires rows != []
    ensures forall r :: r in rows <==> r in rows[..|rows| - 1] || r == rows[|rows| - 1]
    ensures forall i :: 0 <= i < |rows| - 1 && LastWithKey(rows, i) ==> LastWithKey(rows[..|rows| - 1], i)
  {
  }

  /**
   * A GROUP BY returns each value once; when no value is literally
   * "Unspecified", every row's count is reported, NULL under
   * "Unspecified".
   */
  lemma KeyedCountsKeepsGroups(rows: seq<GroupRow>)
    requires forall i, j :: 0 <= i < j < |rows| ==> rows[i].value != rows[j].value
    requires forall i :: 0 <= i < |rows| ==> rows[i].value != Some(UNSPECIFIED)
    ensures forall i :: 0 <= i < |rows| ==> KeyedCounts(rows)[KeyOf(rows[i].value)] == rows[i].count
    ensures forall i :: 0 <= i < |rows| && rows[i].value.None? ==> KeyedCounts(rows)[UNSPECIFIED] == rows[i].count
  {
    forall i | 0 <= i < |rows|
      ensures LastWithKey(rows, i)
    {
      forall j | i < j < |rows|
        ensures KeyOf(rows[j].value) != KeyOf(rows[i].value)
      {
        assert rows[i].value != rows[j].value;
      }
    }
  }

  /** The answers of the five summary queries. */
  datatype SummaryRows = SummaryRows(total: Option<int>, urgency: seq<GroupRow>, department: seq<GroupRow>,
                                     status: seq<GroupRow>, district: seq<GroupRow>)

  datatype Summary = Summary(totalComplaints: int, byUrgency: map<string, int>, byDepartment: map<string, int>,
                             byStatus: map<string, int>, byDistrict: map<string, int>)

  /**
   * summary_counts: `scalar() or 0` for the total, and a keyed dict per
   * category. The district query coalesces a missing district to
   * "Unspecified" in SQL, which is what KeyOf does to a NULL name.
   */
  function SummaryCounts(q: SummaryRows): (s: Summary)
    ensures s.totalComplaints == (if q.total.Some? then q.total.value else 0)
    ensures s.byUrgency.Keys == set r | r in q.urgency :: KeyOf(r.value)
    ensures s.byDepartment.Keys == set r | r in q.department :: KeyOf(r.value)
    ensures s.byStatus.Keys == set r | r in q.status :: KeyOf(r.value)
    ensures s.byDistrict.Keys == set r | r in q.district :: KeyOf(r.value)
  {
    Summary(if q.total.Some? then q.total.value else 0,
            KeyedCounts(q.urgency), KeyedCounts(q.department), KeyedCounts(q.status), KeyedCounts(q.district))
  }

  // ---------------------------------------------------------------------
  // Period labels
  // ---------------------------------------------------------------------

  /** The clock: today's day number and the calendar year and month of now. */
  datatype Now = Now(day: int, year: int, month: int)

  /** A truncated timestamp: its day number and its calendar year and month. */
  datatype Stamp = Stamp(day: int, year: int, month: int)

  /** What the datetime library computes: ISO date text, ISO (year, week), ISO timestamp text. */
  datatype Calendar = Calendar(isoDate: int -> string, isoWeek: int -> (int, int), isoStamp: Stamp -> string)

  /** f"{n:02d}": at least two characters, zero-padded. */
  function TwoDigits(n: int): string
  {
    if 0 <= n < 10 then "0" + Text.IntText(n) else Text.IntText(n)
  }

  /** f"{y}-W{w:02d}" */
  function WeekLabel(yw: (int, int)): string
  {
    Text.IntText(yw.0) + "-W" + TwoDigits(yw.1)
  }

  /** f"{year}-{month:02d}" */
  function MonthLabel(year: int, month: int): string
  {
    Text.IntText(year) + "-" + TwoDigits(month)
  }

  /** A number below 100 takes exactly two digits, whose value is the number. */
  lemma TwoDigitsShape(n: int)
    requires 0 <= n < 100
    ensures |TwoDigits(n)| == 2 && Text.IsDigits(TwoDigits(n)) && Text.DigitsValue(TwoDigits(n)) == n
  {
    var s := TwoDigits(n);
    if n < 10 {
      assert Text.NatDigits(n) == [Text.DigitChar(n)];
      assert s[..1] == "0";
    } else {
      assert Text.NatDigits(n) == Text.NatDigits(n / 10) + [Text.DigitChar(n % 10)];
      assert Text.NatDigits(n / 10) == [Text.DigitChar(n / 10)];
      assert s[..1] == [Text.DigitChar(n / 10)];
    }
  }

  /** Month labels name their month: two labels of years from 0 and months 1..12 agree only on the same month. */
  lemma MonthLabelInjective(y1: int, m1: int, y2: int, m2: int)
    requires y1 >= 0 && y2 >= 0 && 1 <= m1 <= 12 && 1 <= m2 <= 12
    requires MonthLabel(y1, m1) == MonthLabel(y2, m2)
    ensures y1 == y2 && m1 == m2
  {
    TwoDigitsShape(m1);
    TwoDigitsShape(m2);
    var s := MonthLabel(y1, m1);
    var a1, a2 := Text.NatDigits(y1), Text.NatDigits(y2);
    assert |a1| == |s| - 3 == |a2|;
    assert a1 == s[..|s| - 3] == a2;
    assert TwoDigits(m1) == s[|s| - 2..] == TwoDigits(m2);
  }

  /** The week label of a week 1..53 is the year's digits, "-W" and two digits of the week. */
  lemma WeekLabelShape(yw: (int, int))
    requires yw.0 >= 0 && 1 <= yw.1 <= 53
    ensures var s := WeekLabel(yw); var n := |Text.NatDigits(yw.0)|;
      && |s| == n + 4 && s[..n] == Text.NatDigits(yw.0) && s[n..n + 2] == "-W"
      && Text.DigitsValue(s[n + 2..]) == yw.1
  {
    TwoDigitsShape(yw.1);
    var s := WeekLabel(yw);
    var n := |Text.NatDigits(yw.0)|;
    assert s[n + 2..] == TwoDigits(yw.1);
  }

  /** The month `back` months before (year, month), with the month in 1..12. */
  function MonthsBack(year: int, month: int, back: int): (r: (int, int))
    ensures 1 <= r.1 <= 12 && r.0 * 12 + r.1 == year * 12 + month - back
  {
    var t := year * 12 + month - 1 - back;
    (t / 12, t % 12 + 1)
  }

  /** The labels of the `n` periods ending now, oldest first: `at(i)` labels the period i steps back. */
  function Lookback(n: nat, at: int -> string): seq<string>
  {
    Back(n - 1, n, at)
  }

  /** The labels of the `count` periods from `from` steps back towards now, oldest first. */
  function Back(from: int, count: nat, at: int -> string): seq<string>
  {
    if count == 0 then [] else Back(from, count - 1, at) + [at(from - (count - 1))]
  }

  lemma {:induction false} BackIndex(from: int, count: nat, at: int -> string)
    ensures |Back(from, count, at)| == count
    ensures forall j :: 0 <= j < count ==> Back(from, count, at)[j] == at(from - j)
  {
    if count > 0 {
      BackIndex(from, count - 1, at);
    }
  }

  /** Position j of a lookback of n periods is the period n-1-j steps back; the last is the current one. */
  lemma LookbackIndex(n: nat, at: int -> string)
    ensures |Lookback(n, at)| == n
    ensures forall j :: 0 <= j < n ==> Lookback(n, at)[j] == at(n - 1 - j)
    ensures n > 0 ==> Lookback(n, at)[n - 1] == at(0)
  {
    BackIndex(n - 1, n, at);
  }

  /** The day `i` days back, as an ISO date. */
  function DayAt(now: Now, cal: Calendar): int -> string
  {
    i => cal.isoDate(now.day - i)
  }

  /** The ISO week of the day `i` weeks back. */
  function WeekAt(now: Now, cal: Calendar): int -> string
  {
    i => WeekLabel(cal.isoWeek(now.day - 7 * i))
  }

  /** The month `i` months back. */
  function MonthAt(now: Now): int -> string
  {
    i => var ym := MonthsBack(now.year, now.month, i); MonthLabel(ym.0, ym.1)
  }

  /** The count of a lookback: range(n - 1, -1, -1) is empty for n <= 0. */
  function Span(n: int): nat
  {
    if n > 0 then n else 0
  }

  /**
   * The loop the three label builders share: for i from n-1 down to 0,
   * append the label of the period i steps back.
   */
  method LookbackLabels(n: int, at: int -> string) returns (labels: seq<string>)
    ensures labels == Lookback(Span(n), at)
  {
    labels := [];
    var i := n - 1;
    while i >= 0
      invariant n > 0 ==> -1 <= i < n
      invariant labels == Back(n - 1, if n > 0 then n - 1 - i else 0, at)
    {
      labels := labels + [at(i)];
      i := i - 1;
    }
  }

  /** _period_labels_for_days: the ISO dates of the last `days` days, ending today. */
  method PeriodLabelsForDays(now: Now, days: int, cal: Calendar) returns (labels: seq<string>)
    ensures labels == Lookback(Span(days), DayAt(now, cal))
  {
    labels := LookbackLabels(days, DayAt(now, cal));
  }

  /** _period_labels_for_weeks: the ISO weeks of the last `weeks` weeks, ending this week. */
  method PeriodLabelsForWeeks(now: Now, weeks: int, cal: Calendar) returns (labels: seq<string>)
    ensures labels == Lookback(Span(weeks), WeekAt(now, cal))
  {
    labels := LookbackLabels(weeks, WeekAt(now, cal));
  }

  /** The normalising loop: add 12 to the month and take one from the year until the month is positive. */
  method NormalizeMonth(year: int, month: int) returns (y: int, m: int)
    requires month <= 12
    ensures 1 <= m <= 12 && y * 12 + m == year * 12 + month
  {
    y, m := year, month;
    while m <= 0
      invariant m <= 12 && y * 12 + m == year * 12 + month
      decreases -m
    {
      m := m + 12;
      y := y - 1;
    }
  }

  /** One step of _period_labels_for_months: the label of the month `i` months back. */
  method MonthBack(now: Now, i: int) returns (name: string)
    requires 1 <= now.month <= 12 && i >= 0
    ensures name == MonthAt(now)(i)
  {
    var year, month := NormalizeMonth(now.year, now.month - i);
    var ym := MonthsBack(now.year, now.month, i);
    assert year == ym.0 && month == ym.1;
    name := MonthLabel(year, month);
  }

  /**
   * _period_labels_for_months, for a clock whose month is 1..12: the last
   * `months` months, ending this month. Each label is the one MonthBack
   * computes with the normalising loop.
   */
  method PeriodLabelsForMonths(now: Now, months: int) returns (labels: seq<string>)
    requires 1 <= now.month <= 12
    ensures labels == Lookback(Span(months), MonthAt(now))
  {
    labels := LookbackLabels(months, MonthAt(now));
  }

  // ---------------------------------------------------------------------
  // _grouped_trend
  // ---------------------------------------------------------------------

  datatype Trunc = Day | Week | Month | OtherTrunc(name: string)

  /** One (truncated date, urgency, department, count) row of the trend query. */
  datatype TrendRow = TrendRow(period: Option<Stamp>, urgency: Option<string>, department: Option<string>, count: int)

  datatype Trend = Trend(periods: seq<string>, totalByPeriod: map<string, int>,
                         byUrgency: map<string, map<string, int>>, byDepartment: map<string, map<string, int>>)

  /** label_from_truncated */
  function LabelOf(trunc: Trunc, cal: Calendar, s: Stamp): string
  {
    match trunc
    case Day => cal.isoDate(s.day)
    case Week => WeekLabel(cal.isoWeek(s.day))
    case Month => MonthLabel(s.year, s.month)
    case OtherTrunc(_) => cal.isoStamp(s)
  }

  /** label_from_truncated, as a function of the truncated stamp. */
  function LabelFn(trunc: Trunc, cal: Calendar): Stamp -> string
  {
    s => LabelOf(trunc, cal, s)
  }

  /** The period a row is counted under, or None when it has no period or its label is out of range. */
  function Slot(labelOf: Stamp -> string, labels: seq<string>): (slot: TrendRow -> Option<string>)
    ensures forall r :: slot(r).Some? <==> r.period.Some? && labelOf(r.period.value) in labels
    ensures forall r :: slot(r).Some? ==> slot(r).value == labelOf(r.period.value)
  {
    (r: TrendRow) => if r.period.None? then None
                     else var l := labelOf(r.period.value); if l in labels then Some(l) else None
  }

  function UrgencyKey(r: TrendRow): string { KeyOf(r.urgency) }
  function DepartmentKey(r: TrendRow): string { KeyOf(r.department) }

  /** The sum of the counts of the rows counted under period l. */
  function Total(rows: seq<TrendRow>, slot: TrendRow -> Option<string>, l: string): int
  {
    if rows == [] then 0
    else Total(rows[..|rows| - 1], slot, l) + (if slot(rows[|rows| - 1]) == Some(l) then rows[|rows| - 1].count else 0)
  }

  /** The sum of the counts of the rows counted under period l whose category key is k. */
  function Bucket(rows: seq<TrendRow>, slot: TrendRow -> Option<string>, key: TrendRow -> string, k: string, l: string): int
  {
    if rows == [] then 0
    else
      var r := rows[|rows| - 1];
      Bucket(rows[..|rows| - 1], slot, key, k, l) + (if slot(r) == Some(l) && key(r) == k then r.count else 0)
  }

  /** The category keys of the rows that are counted at all. */
  function BucketKeys(rows: seq<TrendRow>, slot: TrendRow -> Option<string>, key: TrendRow -> string): set<string>
  {
    set r | r in rows && slot(r).Some? :: key(r)
  }

  /** `total` holds every period of `labels`, each with its total over `rows`. */
  ghost predicate TotalsAgree(total: map<string, int>, rows: seq<TrendRow>, slot: TrendRow -> Option<string>,
                              labels: seq<string>)
  {
    && (forall l :: l in total <==> l in labels)
    && (forall l :: l in total ==> total[l] == Total(rows, slot, l))
  }

  /** `b` holds a bucket per key of a counted row, each over every period of `labels`. */
  ghost predicate BucketsAgree(b: map<string, map<string, int>>, rows: seq<TrendRow>, slot: TrendRow -> Option<string>,
                               key: TrendRow -> string, labels: seq<string>)
  {
    && (forall k :: k in b <==> k in BucketKeys(rows, slot, key))
    && (forall k :: k in b ==> forall l :: l in b[k] <==> l in labels)
    && (forall k, l :: k in b && l in b[k] ==> b[k][l] == Bucket(rows, slot, key, k, l))
  }

  /** `t` is the trend of `rows` labelled by labelOf over the periods `labels`. */
  ghost predicate IsTrend(t: Trend, rows: seq<TrendRow>, labelOf: Stamp -> string, labels: seq<string>)
  {
    var slot := Slot(labelOf, labels);
    && t.periods == labels
    && TotalsAgree(t.totalByPeriod, rows, slot, labels)
    && BucketsAgree(t.byUrgency, rows, slot, UrgencyKey, labels)
    && BucketsAgree(t.byDepartment, rows, slot, DepartmentKey, labels)
  }

  /** One more row, as the totals and buckets see it. */
  lemma Grow(rows: seq<TrendRow>, i: nat, slot: TrendRow -> Option<string>, key: TrendRow -> string)
    requires i < |rows|
    ensures forall l :: (Total(rows[..i + 1], slot, l) ==
      Total(rows[..i], slot, l) + (if slot(rows[i]) == Some(l) then rows[i].count else 0))
    ensures forall k, l :: (Bucket(rows[..i + 1], slot, key, k, l) ==
      Bucket(rows[..i], slot, key, k, l) + (if slot(rows[i]) == Some(l) && key(rows[i]) == k then rows[i].count else 0))
    ensures BucketKeys(rows[..i + 1], slot, key) ==
      BucketKeys(rows[..i], slot, key) + (if slot(rows[i]).Some? then {key(rows[i])} else {})
  {
    assert rows[..i + 1][..i] == rows[..i];
    assert forall x :: x in rows[..i + 1] <==> x in rows[..i] || x == rows[i];
  }

  /** A row that is not counted changes no total and no bucket. */
  lemma SkipRow(total: map<string, int>, b: map<string, map<string, int>>, rows: seq<TrendRow>, i: nat,
                slot: TrendRow -> Option<string>, key: TrendRow -> string, labels: seq<string>)
    requires i < |rows| && slot(rows[i]).None?
    requires TotalsAgree(total, rows[..i], slot, labels) && BucketsAgree(b, rows[..i], slot, key, labels)
    ensures TotalsAgree(total, rows[..i + 1], slot, labels) && BucketsAgree(b, rows[..i + 1], slot, key, labels)
  {
    Grow(rows, i, slot, key);
  }

  /** A counted row adds its count to its period's total. */
  lemma TotalsStep(total: map<string, int>, rows: seq<TrendRow>, i: nat, slot: TrendRow -> Option<string>,
                   labels: seq<string>, l: string)
    requires i < |rows| && slot(rows[i]) == Some(l) && l in labels
    requires TotalsAgree(total, rows[..i], slot, labels)
    ensures TotalsAgree(total[l := total[l] + rows[i].count], rows[..i + 1], slot, labels)
  {
    Grow(rows, i, slot, UrgencyKey);
  }

  /**
   * `b[k][l] += c` on a defaultdict whose default is 0 for every period of
   * `labels`.
   */
  function AddCount(b: map<string, map<string, int>>, k: string, l: string, c: int, labels: seq<string>)
    : map<string, map<string, int>>
  {
    var row := if k in b then b[k] else map l' | l' in labels :: 0;
    b[k := row[l := if l in row then row[l] + c else c]]
  }

  /** A counted row adds its count to its period in its key's bucket. */
  lemma BucketsStep(b: map<string, map<string, int>>, rows: seq<TrendRow>, i: nat, slot: TrendRow -> Option<string>,
                    key: TrendRow -> string, labels: seq<string>, k: string, l: string)
    requires i < |rows| && slot(rows[i]) == Some(l) && l in labels && k == key(rows[i])
    requires BucketsAgree(b, rows[..i], slot, key, labels)
    ensures BucketsAgree(AddCount(b, k, l, rows[i].count, labels), rows[..i + 1], slot, key, labels)
  {
    var b' := AddCount(b, k, l, rows[i].count, labels);
    Grow(rows, i, slot, key);
    assert forall k2 :: k2 in b' <==> k2 in BucketKeys(rows[..i + 1], slot, key);
    assert forall k2 :: k2 in b' ==> forall l2 :: l2 in b'[k2] <==> l2 in labels;
    forall k2, l2 | k2 in b' && l2 in b'[k2]
      ensures b'[k2][l2] == Bucket(rows[..i + 1], slot, key, k2, l2)
    {
      BucketEntryStep(b, rows, i, slot, key, labels, k, l, k2, l2);
    }
  }

  /** One entry of the buckets after a counted row. */
  lemma BucketEntryStep(b: map<string, map<string, int>>, rows: seq<TrendRow>, i: nat, slot: TrendRow -> Option<string>,
                        key: TrendRow -> string, labels: seq<string>, k: string, l: string, k2: string, l2: string)
    requires i < |rows| && slot(rows[i]) == Some(l) && l in labels && k == key(rows[i])
    requires BucketsAgree(b, rows[..i], slot, key, labels)
    requires var b' := AddCount(b, k, l, rows[i].count, labels); k2 in b' && l2 in b'[k2]
    ensures AddCount(b, k, l, rows[i].count, labels)[k2][l2] == Bucket(rows[..i + 1], slot, key, k2, l2)
  {
    assert rows[..i + 1][..i] == rows[..i];
    assert Bucket(rows[..i + 1], slot, key, k2, l2) ==
      Bucket(rows[..i], slot, key, k2, l2) + (if l2 == l && k2 == k then rows[i].count else 0);
    if k2 == k && k !in b {
      NoKeyNoBucket(rows[..i], slot, key, k, l2);
    }
  }

  /** A key no counted row has collects nothing. */
  lemma {:induction false} NoKeyNoBucket(rows: seq<TrendRow>, slot: TrendRow -> Option<string>, key: TrendRow -> string,
                                         k: string, l: string)
    requires k !in BucketKeys(rows, slot, key)
    ensures Bucket(rows, slot, key, k, l) == 0
  {
    if rows != [] {
      var init := rows[..|rows| - 1];
      assert forall x :: x in init ==> x in rows;
      assert BucketKeys(init, slot, key) <= BucketKeys(rows, slot, key);
      NoKeyNoBucket(init, slot, key, k, l);
      assert rows[|rows| - 1] in rows;
    }
  }

  /**
   * The body of _grouped_trend's loop for a row counted under period lbl:
   * its count goes to the period's total and to the period in its urgency
   * and department buckets; a bucket seen for the first time starts at 0
   * for every period.
   */
  method AddRow(total: map<string, int>, byUrgency: map<string, map<string, int>>,
                byDepartment: map<string, map<string, int>>, rows: seq<TrendRow>, i: nat,
                slot: TrendRow -> Option<string>, labels: seq<string>, lbl: string)
    returns (total': map<string, int>, byUrgency': map<string, map<string, int>>,
             byDepartment': map<string, map<string, int>>)
    requires i < |rows| && slot(rows[i]) == Some(lbl) && lbl in labels
    requires TotalsAgree(total, rows[..i], slot, labels)
    requires BucketsAgree(byUrgency, rows[..i], slot, UrgencyKey, labels)
    requires BucketsAgree(byDepartment, rows[..i], slot, DepartmentKey, labels)
    ensures TotalsAgree(total', rows[..i + 1], slot, labels)
    ensures BucketsAgree(byUrgency', rows[..i + 1], slot, UrgencyKey, labels)
    ensures BucketsAgree(byDepartment', rows[..i + 1], slot, DepartmentKey, labels)
  {
    var r := rows[i];
    TotalsStep(total, rows, i, slot, labels, lbl);
    total' := total[lbl := total[lbl] + r.count];
    var uk := KeyOf(r.urgency);
    BucketsStep(byUrgency, rows, i, slot, UrgencyKey, labels, uk, lbl);
    byUrgency' := AddCount(byUrgency, uk, lbl, r.count, labels);
    var dk := KeyOf(r.department);
    BucketsStep(byDepartment, rows, i, slot, DepartmentKey, labels, dk, lbl);
    byDepartment' := AddCount(byDepartment, dk, lbl, r.count, labels);
  }

  /**
   * The loop of _grouped_trend: every period starts at 0, rows with no
   * period or a label out of range are skipped, and each kept row is
   * counted by AddRow.
   */
  method GroupRows(rows: seq<TrendRow>, labelOf: Stamp -> string, labels: seq<string>) returns (t: Trend)
    ensures IsTrend(t, rows, labelOf, labels)
  {
    var slot := Slot(labelOf, labels);
    var total: map<string, int> := map l | l in labels :: 0;
    var byUrgency: map<string, map<string, int>> := map[];
    var byDepartment: map<string, map<string, int>> := map[];
    for i := 0 to |rows|
      invariant TotalsAgree(total, rows[..i], slot, labels)
      invariant BucketsAgree(byUrgency, rows[..i], slot, UrgencyKey, labels)
      invariant BucketsAgree(byDepartment, rows[..i], slot, DepartmentKey, labels)
    {
      var r := rows[i];
      if r.period.None? {
        SkipRow(total, byUrgency, rows, i, slot, UrgencyKey, labels);
        SkipRow(total, byDepartment, rows, i, slot, DepartmentKey, labels);
        continue;
      }
      var lbl := labelOf(r.period.value);
      if lbl !in total {
        SkipRow(total, byUrgency, rows, i, slot, UrgencyKey, labels);
        SkipRow(total, byDepartment, rows, i, slot, DepartmentKey, labels);
        continue;
      }
      total, byUrgency, byDepartment := AddRow(total, byUrgency, byDepartment, rows, i, slot, labels, lbl);
    }
    assert rows[..|rows|] == rows;
    t := Trend(labels, total, byUrgency, byDepartment);
  }

  /** _grouped_trend: the rows of the query truncated by `trunc`, labelled by label_from_truncated. */
  method GroupedTrend(rows: seq<TrendRow>, trunc: Trunc, labels: seq<string>, cal: Calendar) returns (t: Trend)
    ensures IsTrend(t, rows, LabelFn(trunc, cal), labels)
  {
    t := GroupRows(rows, LabelFn(trunc, cal), labels);
  }

  /** The sum of a bucket family over the keys ks, at period l. */
  function BucketSum(rows: seq<TrendRow>, slot: TrendRow -> Option<string>, key: TrendRow -> string,
                     ks: seq<string>, l: string): int
  {
    if ks == [] then 0 else Bucket(rows, slot, key, ks[0], l) + BucketSum(rows, slot, key, ks[1..], l)
  }

  /** The indicator sum over ks of "the key is kr" is 1 when kr occurs in ks exactly once. */
  lemma {:induction false} BucketSumStep(rows: seq<TrendRow>, r: TrendRow, slot: TrendRow -> Option<string>,
                                         key: TrendRow -> string, ks: seq<string>, l: string)
    requires forall i, j :: 0 <= i < j < |ks| ==> ks[i] != ks[j]
    ensures BucketSum(rows + [r], slot, key, ks, l) ==
      BucketSum(rows, slot, key, ks, l) + (if slot(r) == Some(l) && key(r) in ks then r.count else 0)
  {
    if ks != [] {
      assert (rows + [r])[..|rows|] == rows;
      BucketSumStep(rows, r, slot, key, ks[1..], l);
      assert key(r) == ks[0] ==> key(r) !in ks[1..];
      assert key(r) in ks <==> key(r) == ks[0] || key(r) in ks[1..];
    }
  }

  /**
   * Each period total is the sum of its urgency buckets, and likewise of
   * its department buckets: summing a bucket family over a list of its keys
   * without repeats gives the period total.
   */
  lemma {:induction false} TotalIsBucketSum(rows: seq<TrendRow>, slot: TrendRow -> Option<string>,
                                            key: TrendRow -> string, ks: seq<string>, l: string)
    requires forall i, j :: 0 <= i < j < |ks| ==> ks[i] != ks[j]
    requires forall k :: k in BucketKeys(rows, slot, key) ==> k in ks
    ensures Total(rows, slot, l) == BucketSum(rows, slot, key, ks, l)
  {
    if rows == [] {
      ZeroBuckets(slot, key, ks, l);
    } else {
      var init := rows[..|rows| - 1];
      var r := rows[|rows| - 1];
      assert init + [r] == rows;
      assert forall x :: x in init ==> x in rows;
      assert slot(r).Some? ==> key(r) in BucketKeys(rows, slot, key);
      TotalIsBucketSum(init, slot, key, ks, l);
      BucketSumStep(init, r, slot, key, ks, l);
    }
  }

  lemma {:induction false} ZeroBuckets(slot: TrendRow -> Option<string>, key: TrendRow -> string, ks: seq<string>, l: string)
    ensures BucketSum([], slot, key, ks, l) == 0
  {
    if ks != [] {
      ZeroBuckets(slot, key, ks[1..], l);
    }
  }

  /** The sum over the keys ks of a bucket family's entries for period l. */
  function ColumnSum(b: map<string, map<string, int>>, ks: seq<string>, l: string): int
  {
    if ks == [] then 0
    else (if ks[0] in b && l in b[ks[0]] then b[ks[0]][l] else 0) + ColumnSum(b, ks[1..], l)
  }

  lemma {:induction false} ColumnSumIsBucketSum(b: map<string, map<string, int>>, rows: seq<TrendRow>,
                                                slot: TrendRow -> Option<string>, key: TrendRow -> string,
                                                labels: seq<string>, ks: seq<string>, l: string)
    requires BucketsAgree(b, rows, slot, key, labels) && l in labels
    ensures ColumnSum(b, ks, l) == BucketSum(rows, slot, key, ks, l)
  {
    if ks != [] {
      ColumnSumIsBucketSum(b, rows, slot, key, labels, ks[1..], l);
      if ks[0] !in b {
        NoKeyNoBucket(rows, slot, key, ks[0], l);
      }
    }
  }

  /**
   * On the trend _grouped_trend returns, each period's total is the sum of
   * that period over the urgency buckets, and also over the department
   * buckets (each listed once).
   */
  lemma TrendTotalIsColumnSum(t: Trend, rows: seq<TrendRow>, labelOf: Stamp -> string, labels: seq<string>,
                              urgencies: seq<string>, departments: seq<string>, l: string)
    requires IsTrend(t, rows, labelOf, labels) && l in labels
    requires forall i, j :: 0 <= i < j < |urgencies| ==> urgencies[i] != urgencies[j]
    requires forall k :: k in t.byUrgency ==> k in urgencies
    requires forall i, j :: 0 <= i < j < |departments| ==> departments[i] != departments[j]
    requires forall k :: k in t.byDepartment ==> k in departments
    ensures t.totalByPeriod[l] == ColumnSum(t.byUrgency, urgencies, l)
    ensures t.totalByPeriod[l] == ColumnSum(t.byDepartment, departments, l)
  {
    var slot := Slot(labelOf, labels);
    TotalIsBucketSum(rows, slot, UrgencyKey, urgencies, l);
    ColumnSumIsBucketSum(t.byUrgency, rows, slot, UrgencyKey, labels, urgencies, l);
    TotalIsBucketSum(rows, slot, DepartmentKey, departments, l);
    ColumnSumIsBucketSum(t.byDepartment, rows, slot, DepartmentKey, labels, departments, l);
  }

  // ---------------------------------------------------------------------
  // get_cached_or_compute
  // ---------------------------------------------------------------------

  /** The query answers the dispatcher may need. */
  datatype Db = Db(summary: SummaryRows, dayRows: seq<TrendRow>, weekRows: seq<TrendRow>, monthRows: seq<TrendRow>)

  /** A cache file's top-level JSON object, with its values kept opaque. */
  type CacheFile = map<string, string>

  datatype Payload =
    | FromCache(file: CacheFile)
    | SummaryData(summary: Summary)
    | CountsData(counts: map<string, int>)
    | TrendData(trend: Trend)

  const NAMES: seq<string> := ["summary", "by_urgency", "by_department", "by_status", "by_district",
                               "trends_daily", "trends_weekly", "trends_monthly"]

  /**
   * get_cached_or_compute: a non-empty cached object is returned as it is,
   * whatever the name; otherwise the named analytic is computed, and an
   * unknown name is a ValueError.
   */
  method GetCachedOrCompute(name: string, cached: Option<CacheFile>, db: Db, now: Now, cal: Calendar,
                            days: int, weeks: int, months: int) returns (r: Result<Payload, string>)
    requires 1 <= now.month <= 12
    ensures cached.Some? && |cached.value| > 0 ==> r == Ok(FromCache(cached.value))
    ensures (cached.None? || |cached.value| == 0) ==>
      && (r.Err? <==> name !in NAMES)
      && (r.Err? ==> r.error == "Unknown analytics name: " + name)
      && (name == "summary" ==> r == Ok(SummaryData(SummaryCounts(db.summary))))
      && (name == "by_urgency" ==> r == Ok(CountsData(SummaryCounts(db.summary).byUrgency)))
      && (name == "by_department" ==> r == Ok(CountsData(SummaryCounts(db.summary).byDepartment)))
      && (name == "by_status" ==> r == Ok(CountsData(SummaryCounts(db.summary).byStatus)))
      && (name == "by_district" ==> r == Ok(CountsData(SummaryCounts(db.summary).byDistrict)))
      && (name == "trends_daily" ==> r.Ok? && r.value.TrendData? && IsTrend(r.value.trend, db.dayRows, LabelFn(Day, cal), Lookback(Span(days), DayAt(now, cal))))
      && (name == "trends_weekly" ==> r.Ok? && r.value.TrendData? && IsTrend(r.value.trend, db.weekRows, LabelFn(Week, cal), Lookback(Span(weeks), WeekAt(now, cal))))
      && (name == "trends_monthly" ==> r.Ok? && r.value.TrendData? && IsTrend(r.value.trend, db.monthRows, LabelFn(Month, cal), Lookback(Span(months), MonthAt(now))))
  {
    if cached.Some? && |cached.value| > 0 {
      return Ok(FromCache(cached.value));
    }
    if name == "summary" {
      return Ok(SummaryData(SummaryCounts(db.summary)));
    }
    if name == "by_urgency" {
      return Ok(CountsData(SummaryCounts(db.summary).byUrgency));
    }
    if name == "by_department" {
      return Ok(CountsData(SummaryCounts(db.summary).byDepartment));
    }
    if name == "by_status" {
      return Ok(CountsData(SummaryCounts(db.summary).byStatus));
    }
    if name == "by_district" {
      return Ok(CountsData(SummaryCounts(db.summary).byDistrict));
    }
    if name == "trends_daily" {
      var labels := PeriodLabelsForDays(now, days, cal);
      var t := GroupedTrend(db.dayRows, Day, labels, cal);
      return Ok(TrendData(t));
    }
    if name == "trends_weekly" {
      var labels := PeriodLabelsForWeeks(now, weeks, cal);
      var t := GroupedTrend(db.weekRows, Week, labels, cal);
      return Ok(TrendData(t));
    }
    if name == "trends_monthly" {
      var labels := PeriodLabelsForMonths(now, months);
      var t := GroupedTrend(db.monthRows, Month, labels, cal);
      return Ok(TrendData(t));
    }
    return Err("Unknown analytics name: " + name);
  }
}
