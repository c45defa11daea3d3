/**
 * The dashboard statistics: status counts, income at a flat price per recorded session, the
 * month's income, class popularity sorted by attendance, revenue over the last six months and
 * the count of active customers running low on sessions.
 *
 * Calendar months are abstracted: `monthOf` maps a timestamp to a month number (year and month
 * folded into one integer), and the month `i` months before month `m` is `m - i`.
 */
module Stats {
  import opened Values
  import opened Collections
  import opened Entities

  /** The flat price the dashboard charges per recorded session. */
  const SESSION_PRICE := 50

  // ---------------------------------------------------------------- counts

  /** `c => c.status === st`. */
  function HasStatus(st: Status): Customer -> bool {
    (c: Customer) => c.status == st
  }

  /** `c => c.remainingSessions < 5 && c.status === 'active'`. */
  function IsLowOnSessions(c: Customer): bool {
    c.remainingSessions < 5 && c.status == Active
  }

  /** `customers.filter(c => c.status === st).length`. */
  function StatusCount(customers: seq<Customer>, st: Status): nat {
    |Filter(customers, HasStatus(st))|
  }

  /** The three status counts add up to the number of customers, since every status is one of the three. */
  lemma {:induction false} StatusCountsPartition(customers: seq<Customer>)
    ensures StatusCount(customers, Active) + StatusCount(customers, Frozen) + StatusCount(customers, Expired) == |customers|
  {
    if customers != [] {
      StatusCountsPartition(customers[1..]);
    }
  }

  /** Low-session customers are among the active ones. */
  lemma LowSessionsAmongActive(customers: seq<Customer>)
    ensures |Filter(customers, IsLowOnSessions)| <= StatusCount(customers, Active)
  {
    FilterLengthMonotone(customers, IsLowOnSessions, HasStatus(Active));
  }

  // ---------------------------------------------------------------- months

  /** `record => the record's month is month m`. */
  function InMonth(monthOf: int -> int, m: int): AttendanceRecord -> bool {
    (r: AttendanceRecord) => monthOf(r.timestamp) == m
  }

  /** The sessions recorded in month `m`. */
  function MonthCount(records: seq<AttendanceRecord>, monthOf: int -> int, m: int): (n: nat)
    ensures n <= |records|
  {
    |Filter(records, InMonth(monthOf, m))|
  }

  /** One entry of the six-month revenue chart; the month's display label is not modelled. */
  datatype MonthRevenue = MonthRevenue(month: int, revenue: int)

  /**
   * The loop building the revenue chart: for `i` from 5 down to 0, the revenue of the month `i`
   * months before `currentMonth`, oldest first.
   */
  /**
   * The six-month revenue chart: oldest first, entry `j` is month `currentMonth - 5 + j`
   * with the price of the sessions recorded in it, so a whole multiple of the session price.
   */
  predicate RevenueChart(chart: seq<MonthRevenue>, records: seq<AttendanceRecord>, monthOf: int -> int, currentMonth: int) {
    && |chart| == 6
    && (forall j :: 0 <= j < |chart| ==>
      chart[j].month == currentMonth - 5 + j
      && chart[j].revenue == MonthCount(records, monthOf, currentMonth - 5 + j) * SESSION_PRICE)
    && (forall j :: 0 <= j < |chart| ==> chart[j].revenue % SESSION_PRICE == 0 && chart[j].revenue >= 0)
  }

  method MonthlyRevenue(records: seq<AttendanceRecord>, monthOf: int -> int, currentMonth: int) returns (chart: seq<MonthRevenue>)
    ensures RevenueChart(chart, records, monthOf, currentMonth)
  {
    chart := [];
    var i := 5;
    while i >= 0
      invariant -1 <= i <= 5
      invariant |chart| == 5 - i
      invariant forall j :: 0 <= j < |chart| ==>
        chart[j].month == currentMonth - 5 + j
        && chart[j].revenue == MonthCount(records, monthOf, currentMonth - 5 + j) * SESSION_PRICE
      invariant forall j :: 0 <= j < |chart| ==> chart[j].revenue % SESSION_PRICE == 0 && chart[j].revenue >= 0
    {
      var month := currentMonth - i;
      var revenue := |Filter(records, InMonth(monthOf, month))| * SESSION_PRICE;
      chart := chart + [MonthRevenue(month, revenue)];
      i := i - 1;
    }
  }

  // ---------------------------------------------------------------- class popularity

  /** One row of the popularity table; the utilisation percentage is not modelled. */
  datatype Popularity = Popularity(id: int, name: string, attendance: int, enrolledCount: int, capacity: int)

  /** `record => record.classId === k`. */
  function ForClass(k: int): AttendanceRecord -> bool {
    (r: AttendanceRecord) => r.classId == k
  }

  /** The row for class `g`: its attendance is the number of records naming it. */
  function PopularityEntry(g: GymClass, records: seq<AttendanceRecord>): Popularity {
    Popularity(g.id, g.name, |Filter(records, ForClass(g.id))|, g.enrolledCount, g.capacity)
  }

  /** `classes.map(...)`: one row per class, in class order. */
  function Entries(classes: seq<GymClass>, records: seq<AttendanceRecord>): (r: seq<Popularity>)
    ensures |r| == |classes|
    ensures forall i :: 0 <= i < |classes| ==> r[i] == PopularityEntry(classes[i], records)
  {
    if classes == [] then [] else [PopularityEntry(classes[0], records)] + Entries(classes[1..], records)
  }

  /** Rows in non-increasing order of attendance. */
  predicate SortedByAttendance(s: seq<Popularity>) {
    forall i, j :: 0 <= i < j < |s| ==> s[i].attendance >= s[j].attendance
  }

  /** Places `x` before the first row whose attendance does not exceed its own. */
  function Insert(x: Popularity, t: seq<Popularity>): (r: seq<Popularity>)
    ensures |r| == |t| + 1
    ensures forall e :: e in r <==> e == x || e in t
    ensures multiset(r) == multiset(t) + multiset{x}
  {
    if t == [] then [x]
    else if t[0].attendance <= x.attendance then [x] + t
    else
      assert t == [t[0]] + t[1..];
      [t[0]] + Insert(x, t[1..])
  }

  /**
   * `.sort((a, b) => b.attendance - a.attendance)`: JavaScript's sort is stable, so rows with
   * equal attendance keep their order; an insertion sort has the same result.
   */
  function SortByAttendance(s: seq<Popularity>): (r: seq<Popularity>)
    ensures |r| == |s|
    ensures multiset(r) == multiset(s)
  {
    if s == [] then []
    else
      assert s == [s[0]] + s[1..];
      Insert(s[0], SortByAttendance(s[1..]))
  }

  lemma {:induction false} InsertSorted(x: Popularity, t: seq<Popularity>)
    requires SortedByAttendance(t)
    ensures SortedByAttendance(Insert(x, t))
  {
    if t != [] && t[0].attendance > x.attendance {
      InsertSorted(x, t[1..]);
      var r := Insert(x, t);
      forall j | 0 < j < |r|
        ensures r[0].attendance >= r[j].attendance
      {
        assert r[j] in Insert(x, t[1..]);
      }
    }
  }

  /** The table is in non-increasing order of attendance. */
  lemma {:induction false} SortSorted(s: seq<Popularity>)
    ensures SortedByAttendance(SortByAttendance(s))
  {
    if s != [] {
      SortSorted(s[1..]);
      InsertSorted(s[0], SortByAttendance(s[1..]));
    }
  }

  /** `e => e.attendance === v`. */
  function HasAttendance(v: int): Popularity -> bool {
    (e: Popularity) => e.attendance == v
  }

  lemma {:induction false} InsertStable(x: Popularity, t: seq<Popularity>, v: int)
    ensures Filter(Insert(x, t), HasAttendance(v)) ==
      (if x.attendance == v then [x] else []) + Filter(t, HasAttendance(v))
  {
    var p := HasAttendance(v);
    var r := Insert(x, t);
    if t == [] || t[0].attendance <= x.attendance {
      assert r == [x] + t && r[0] == x && r[1..] == t;
    } else {
      InsertStable(x, t[1..], v);
      assert r == [t[0]] + Insert(x, t[1..]) && r[0] == t[0] && r[1..] == Insert(x, t[1..]);
      assert Filter(t, p) == (if p(t[0]) then [t[0]] else []) + Filter(t[1..], p);
      assert p(t[0]) ==> !p(x);
    }
  }

  /** The sort is stable: the rows of any one attendance value come out in the order they went in. */
  lemma {:induction false} SortStable(s: seq<Popularity>, v: int)
    ensures Filter(SortByAttendance(s), HasAttendance(v)) == Filter(s, HasAttendance(v))
  {
    if s != [] {
      SortStable(s[1..], v);
      InsertStable(s[0], SortByAttendance(s[1..]), v);
    }
  }

  /** The total attendance over a list of rows. */
  function SumAttendance(s: seq<Popularity>): int {
    if s == [] then 0 else s[0].attendance + SumAttendance(s[1..])
  }

  lemma {:induction false} InsertSum(x: Popularity, t: seq<Popularity>)
    ensures SumAttendance(Insert(x, t)) == x.attendance + SumAttendance(t)
  {
    if t != [] && t[0].attendance > x.attendance {
      InsertSum(x, t[1..]);
    }
  }

  /** Sorting does not change the total attendance. */
  lemma {:induction false} SortSum(s: seq<Popularity>)
    ensures SumAttendance(SortByAttendance(s)) == SumAttendance(s)
  {
    if s != [] {
      SortSum(s[1..]);
      InsertSum(s[0], SortByAttendance(s[1..]));
    }
  }

  /** No two classes share an id. */
  predicate DistinctIds(classes: seq<GymClass>) {
    forall i, j :: 0 <= i < j < |classes| ==> classes[i].id != classes[j].id
  }

  /** The number of classes with id `k`. */
  function ClassesWithId(classes: seq<GymClass>, k: int): nat {
    if classes == [] then 0 else (if classes[0].id == k then 1 else 0) + ClassesWithId(classes[1..], k)
  }

  lemma {:induction false} NoClassWithId(classes: seq<GymClass>, k: int)
    requires forall i :: 0 <= i < |classes| ==> classes[i].id != k
    ensures ClassesWithId(classes, k) == 0
  {
    if classes != [] {
      NoClassWithId(classes[1..], k);
    }
  }

  lemma {:induction false} DistinctIdsAtMostOne(classes: seq<GymClass>, k: int)
    requires DistinctIds(classes)
    ensures ClassesWithId(classes, k) <= 1
  {
    if classes != [] {
      if classes[0].id == k {
        assert forall i :: 0 <= i < |classes[1..]| ==> classes[1..][i] == classes[i + 1];
        NoClassWithId(classes[1..], k);
      } else {
        DistinctIdsAtMostOne(classes[1..], k);
      }
    }
  }

  /** Adding one record in front raises the total attendance by the number of classes it names. */
  lemma {:induction false} EntriesSumCons(classes: seq<GymClass>, r: AttendanceRecord, rest: seq<AttendanceRecord>)
    ensures SumAttendance(Entries(classes, [r] + rest)) == ClassesWithId(classes, r.classId) + SumAttendance(Entries(classes, rest))
  {
    if classes != [] {
      EntriesSumCons(classes[1..], r, rest);
      assert ([r] + rest)[1..] == rest;
    }
  }

  /** With distinct class ids every record is counted for at most one class, so the rows total at most the records. */
  lemma {:induction false} EntriesSumBound(classes: seq<GymClass>, records: seq<AttendanceRecord>)
    requires DistinctIds(classes)
    ensures SumAttendance(Entries(classes, records)) <= |records|
  {
    if records == [] {
      EntriesSumEmpty(classes);
    } else {
      EntriesSumBound(classes, records[1..]);
      assert records == [records[0]] + records[1..];
      EntriesSumCons(classes, records[0], records[1..]);
      DistinctIdsAtMostOne(classes, records[0].classId);
    }
  }

  lemma {:induction false} EntriesSumEmpty(classes: seq<GymClass>)
    ensures SumAttendance(Entries(classes, [])) == 0
  {
    if classes != [] {
      EntriesSumEmpty(classes[1..]);
    }
  }

  /**
   * A popularity table of `classes` over `records`: sorted, holding exactly the class rows,
   * keeping ties in class order and, with distinct class ids, totalling at most the recorded sessions.
   */
  ghost predicate PopularityTable(t: seq<Popularity>, classes: seq<GymClass>, records: seq<AttendanceRecord>) {
    && |t| == |classes|
    && multiset(t) == multiset(Entries(classes, records))
    && SortedByAttendance(t)
    && (forall v :: Filter(t, HasAttendance(v)) == Filter(Entries(classes, records), HasAttendance(v)))
    && (DistinctIds(classes) ==> SumAttendance(t) <= |records|)
  }

  /** The sorted class rows form the popularity table. */
  lemma ClassPopularityFacts(classes: seq<GymClass>, records: seq<AttendanceRecord>)
    ensures PopularityTable(SortByAttendance(Entries(classes, records)), classes, records)
  {
    var entries := Entries(classes, records);
    SortSorted(entries);
    forall v
      ensures Filter(SortByAttendance(entries), HasAttendance(v)) == Filter(entries, HasAttendance(v))
    {
      SortStable(entries, v);
    }
    SortSum(entries);
    if DistinctIds(classes) {
      EntriesSumBound(classes, records);
    }
  }

  // ---------------------------------------------------------------- the dashboard

  /** What the dashboard shows; the average sessions per customer is not modelled. */
  datatype Dashboard = Dashboard(
    totalCustomers: int,
    activeCount: int,
    frozenCount: int,
    expiredCount: int,
    totalIncome: int,
    monthlyIncome: int,
    totalSessions: int,
    monthlyAttendance: int,
    classPopularity: seq<Popularity>,
    monthlyRevenue: seq<MonthRevenue>,
    lowSessionCustomers: int,
    totalClasses: int)

  /** `useStats()` over the current collections, with `monthOf(now)` as the current month. */
  method ComputeStats(customers: seq<Customer>, classes: seq<GymClass>, records: seq<AttendanceRecord>, monthOf: int -> int, now: int)
      returns (d: Dashboard)
    ensures d.totalCustomers == |customers| && d.totalClasses == |classes|
    ensures d.activeCount == StatusCount(customers, Active)
    ensures d.frozenCount == StatusCount(customers, Frozen)
    ensures d.expiredCount == StatusCount(customers, Expired)
    ensures d.activeCount + d.frozenCount + d.expiredCount == d.totalCustomers
    ensures d.totalSessions == |records| && d.totalIncome == SESSION_PRICE * d.totalSessions
    ensures d.monthlyAttendance == MonthCount(records, monthOf, monthOf(now))
    ensures d.monthlyIncome == SESSION_PRICE * d.monthlyAttendance && d.monthlyIncome <= d.totalIncome
    ensures d.lowSessionCustomers == |Filter(customers, IsLowOnSessions)| && d.lowSessionCustomers <= d.activeCount
    ensures PopularityTable(d.classPopularity, classes, records)
    ensures RevenueChart(d.monthlyRevenue, records, monthOf, monthOf(now))
  {
    var activeCount := |Filter(customers, HasStatus(Active))|;
    var frozenCount := |Filter(customers, HasStatus(Frozen))|;
    var expiredCount := |Filter(customers, HasStatus(Expired))|;
    StatusCountsPartition(customers);
    var totalSessions := |records|;
    var totalIncome := totalSessions * SESSION_PRICE;
    var currentMonth := monthOf(now);
    var monthlyAttendance := |Filter(records, InMonth(monthOf, currentMonth))|;
    var monthlyIncome := monthlyAttendance * SESSION_PRICE;
    var classPopularity := SortByAttendance(Entries(classes, records));
    ClassPopularityFacts(classes, records);
    var monthlyRevenue := MonthlyRevenue(records, monthOf, currentMonth);
    var lowSessionCustomers := |Filter(customers, IsLowOnSessions)|;
    LowSessionsAmongActive(customers);
    d := Dashboard(|customers|, activeCount, frozenCount, expiredCount, totalIncome, monthlyIncome,
                   totalSessions, monthlyAttendance, classPopularity, monthlyRevenue, lowSessionCustomers, |classes|);
  }

  /** Each class has its row in the table, carrying its id and the number of records naming it. */
  lemma PopularityCoversClasses(classes: seq<GymClass>, records: seq<AttendanceRecord>, i: int)
    requires 0 <= i < |classes|
    ensures var e := PopularityEntry(classes[i], records);
      && e in SortByAttendance(Entries(classes, records))
      && e.id == classes[i].id
      && e.attendance == |Filter(records, ForClass(classes[i].id))|
  {
    var es := Entries(classes, records);
    assert es[i] in multiset(es);
    assert es[i] in multiset(SortByAttendance(es));
  }
}
