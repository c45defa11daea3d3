/**
 * The membership status machine: freezing appends a period to the customer's freeze history
 * and sets the status to frozen; unfreezing recomputes the status against "now"; the freeze
 * status query reads the periods that cover "now".
 */
module FreezeMembership {
  import opened Values
  import opened Collections
  import opened Entities
  import opened DataContext
  import opened FormatDate

  // ---------------------------------------------------------------- freeze

  /** The update `freezeMembership` merges: status frozen, one more period in the history. */
  function FreezePatch(c: Customer, period: FreezePeriod): CustomerPatch {
    NoCustomerChange.(status := Some(Frozen), freezePeriods := Some(c.freezePeriods + [period]))
  }

  /**
   * `freezeMembership(customerId, startDate, endDate, reason)`: refuses an unknown customer and
   * an already frozen membership; the dates are not checked. `periodId` and `createdAt` stand for
   * the clock readings the application takes.
   */
  function FreezeStep(s: Store, customerId: int, startDate: Date, endDate: Date, reason: string, periodId: int, createdAt: int): Step<Result<FreezePeriod, LedgerError>> {
    match FindCustomer(s.customers, customerId)
    case None => Step(s, Err(CustomerNotFound))
    case Some(c) =>
      if c.status == Frozen then Step(s, Err(AlreadyFrozen))
      else
        var period := FreezePeriod(periodId, startDate, endDate, reason, createdAt);
        Step(UpdateCustomerStep(s, customerId, FreezePatch(c, period)), Ok(period))
  }

  /** `freezeMembership`, run against the provider. */
  method Freeze(repo: Repository, customerId: int, startDate: Date, endDate: Date, reason: string, periodId: int, createdAt: int)
      returns (r: Result<FreezePeriod, LedgerError>)
    modifies repo
    ensures repo.State() == FreezeStep(old(repo.State()), customerId, startDate, endDate, reason, periodId, createdAt).next
    ensures r == FreezeStep(old(repo.State()), customerId, startDate, endDate, reason, periodId, createdAt).result
  {
    ghost var st := FreezeStep(repo.State(), customerId, startDate, endDate, reason, periodId, createdAt);
    var customer := repo.GetCustomer(customerId);
    if customer.None? {
      r := Err(CustomerNotFound);
      assert r.error == st.result.error;
      return;
    }
    var c := customer.value;
    if c.status == Frozen {
      r := Err(AlreadyFrozen);
      assert r.error == st.result.error;
      return;
    }
    var period := FreezePeriod(periodId, startDate, endDate, reason, createdAt);
    repo.UpdateCustomer(customerId, FreezePatch(c, period));
    r := Ok(period);
    assert r.value == st.result.value;
  }

  // ---------------------------------------------------------------- unfreeze

  /** The status a membership returns to when unfrozen at `now`: expired once its end date has passed. */
  function ThawedStatus(c: Customer, now: int): (r: Status)
    ensures r != Frozen
    ensures r == Expired <==> IsPast(c.endDate, now)
  {
    if IsPast(c.endDate, now) then Expired else Active
  }

  /**
   * `unfreezeMembership(customerId)` at `now`: refuses an unknown customer and a membership that
   * is not frozen; otherwise stores and reports the recomputed status.
   */
  function UnfreezeStep(s: Store, customerId: int, now: int): Step<Result<Status, LedgerError>> {
    match FindCustomer(s.customers, customerId)
    case None => Step(s, Err(CustomerNotFound))
    case Some(c) =>
      if c.status != Frozen then Step(s, Err(NotFrozen))
      else
        var status := ThawedStatus(c, now);
        Step(UpdateCustomerStep(s, customerId, NoCustomerChange.(status := Some(status))), Ok(status))
  }

  /** `unfreezeMembership`, run against the provider. */
  method Unfreeze(repo: Repository, customerId: int, now: int) returns (r: Result<Status, LedgerError>)
    modifies repo
    ensures repo.State() == UnfreezeStep(old(repo.State()), customerId, now).next
    ensures r == UnfreezeStep(old(repo.State()), customerId, now).result
  {
    ghost var st := UnfreezeStep(repo.State(), customerId, now);
    var customer := repo.GetCustomer(customerId);
    if customer.None? {
      r := Err(CustomerNotFound);
      assert r.error == st.result.error;
      return;
    }
    var c := customer.value;
    if c.status != Frozen {
      r := Err(NotFrozen);
      assert r.error == st.result.error;
      return;
    }
    var isExpired := IsPast(c.endDate, now);
    var status := if isExpired then Expired else Active;
    repo.UpdateCustomer(customerId, NoCustomerChange.(status := Some(status)));
    r := Ok(status);
    assert r.value == st.result.value;
  }

  // ---------------------------------------------------------------- the status query

  /** A period is in force at `now` when both its dates are valid and `startDate <= now <= endDate`. */
  predicate CoversNow(p: FreezePeriod, now: int) {
    p.startDate.At? && p.endDate.At? && p.startDate.ms <= now <= p.endDate.ms
  }

  /** The whole days a period spans, rounded up. */
  function PeriodDays(p: FreezePeriod): int
    requires p.startDate.At? && p.endDate.At?
  {
    CeilDays(p.endDate.ms - p.startDate.ms)
  }

  /** The sum of `PeriodDays` over periods in force, taken left to right. */
  function TotalDays(ps: seq<FreezePeriod>, now: int): int
    requires forall i :: 0 <= i < |ps| ==> CoversNow(ps[i], now)
  {
    if ps == [] then 0
    else
      var last := ps[|ps| - 1];
      assert CoversNow(last, now);
      assert forall i :: 0 <= i < |ps| - 1 ==> ps[..|ps| - 1][i] == ps[i];
      TotalDays(ps[..|ps| - 1], now) + PeriodDays(last)
  }

  /** What `checkFreezeStatus` reports; an unknown customer gets only `isFrozen: false`. */
  datatype FreezeStatus =
    | NoCustomer
    | Status(isFrozen: bool, activeFreezes: seq<FreezePeriod>, totalFreezeDays: int)

  /** `checkFreezeStatus(customerId)` at `now`. */
  function CheckFreezeStatus(customers: seq<Customer>, customerId: int, now: int): FreezeStatus {
    match FindCustomer(customers, customerId)
    case None => NoCustomer
    case Some(c) =>
      var active := Filter(c.freezePeriods, (p: FreezePeriod) => CoversNow(p, now));
      assert forall i :: 0 <= i < |active| ==> active[i] in active;
      Status(c.status == Frozen, active, TotalDays(active, now))
  }

  /** Whether the query reports the membership as frozen. */
  function IsFrozen(st: FreezeStatus): bool {
    st.Status? && st.isFrozen
  }

  // ---------------------------------------------------------------- what the operations promise

  /** Freezing refuses an unknown customer, then an already frozen membership; a refusal changes nothing. */
  lemma FreezeRefusals(s: Store, customerId: int, startDate: Date, endDate: Date, reason: string, periodId: int, createdAt: int)
    ensures var st := FreezeStep(s, customerId, startDate, endDate, reason, periodId, createdAt);
      && (st.result.Err? ==> st.next == s)
      && (FindCustomer(s.customers, customerId).None? ==> st.result.Err? && st.result.error == CustomerNotFound)
      && (FindCustomer(s.customers, customerId).Some? ==>
            (st.result.Err? <==> FindCustomer(s.customers, customerId).value.status == Frozen))
      && ((FindCustomer(s.customers, customerId).Some? && FindCustomer(s.customers, customerId).value.status == Frozen)
            ==> st.result.error == AlreadyFrozen)
  {
  }

  /** The record freezing leaves: status frozen, the history one period longer, everything else as it was. */
  lemma FreezePatchEffect(c: Customer, period: FreezePeriod)
    ensures var c' := ApplyCustomerPatch(c, FreezePatch(c, period));
      && c'.status == Frozen
      && c'.freezePeriods == c.freezePeriods + [period]
      && c'.(status := c.status, freezePeriods := c.freezePeriods) == c
  {
  }

  /**
   * Freezing an active or expired membership sets it frozen and appends exactly one period with
   * the given dates and reason, whatever those dates are; other customers, the classes and the
   * attendance records are untouched.
   */
  lemma FreezeEffect(s: Store, customerId: int, startDate: Date, endDate: Date, reason: string, periodId: int, createdAt: int, c: Customer, j: int)
    requires FindCustomer(s.customers, customerId) == Some(c) && c.status != Frozen
    ensures var st := FreezeStep(s, customerId, startDate, endDate, reason, periodId, createdAt);
      var period := FreezePeriod(periodId, startDate, endDate, reason, createdAt);
      && st.result.Ok? && st.result.value == period
      && FindCustomer(st.next.customers, customerId).Some?
      && FindCustomer(st.next.customers, customerId).value == ApplyCustomerPatch(c, FreezePatch(c, period))
      && (j != customerId ==> FindCustomer(st.next.customers, j) == FindCustomer(s.customers, j))
      && st.next.classes == s.classes && st.next.attendanceRecords == s.attendanceRecords
  {
    var period := FreezePeriod(periodId, startDate, endDate, reason, createdAt);
    var st := FreezeStep(s, customerId, startDate, endDate, reason, periodId, createdAt);
    assert st.next == UpdateCustomerStep(s, customerId, FreezePatch(c, period));
    UpdateCustomerFinds(s, customerId, FreezePatch(c, period), c);
    if j != customerId {
      UpdateCustomerKeeps(s, customerId, FreezePatch(c, period), j);
    }
  }

  /** Unfreezing refuses an unknown customer, then a membership that is not frozen; a refusal changes nothing. */
  lemma UnfreezeRefusals(s: Store, customerId: int, now: int)
    ensures var st := UnfreezeStep(s, customerId, now);
      && (st.result.Err? ==> st.next == s)
      && (FindCustomer(s.customers, customerId).None? ==> st.result.Err? && st.result.error == CustomerNotFound)
      && (FindCustomer(s.customers, customerId).Some? ==>
            (st.result.Err? <==> FindCustomer(s.customers, customerId).value.status != Frozen))
      && ((FindCustomer(s.customers, customerId).Some? && FindCustomer(s.customers, customerId).value.status != Frozen)
            ==> st.result.error == NotFrozen)
  {
  }

  /**
   * Unfreezing a frozen membership stores expired when its end date is before `now` and active
   * otherwise, reports the status it stored, and leaves the freeze history and every other field
   * as they were.
   */
  lemma UnfreezeEffect(s: Store, customerId: int, now: int, c: Customer, j: int)
    requires FindCustomer(s.customers, customerId) == Some(c) && c.status == Frozen
    ensures var st := UnfreezeStep(s, customerId, now);
      && st.result.Ok?
      && (st.result.value == Expired <==> IsPast(c.endDate, now))
      && (st.result.value == Active <==> !IsPast(c.endDate, now))
      && FindCustomer(st.next.customers, customerId).Some?
      && FindCustomer(st.next.customers, customerId).value == c.(status := st.result.value)
      && (j != customerId ==> FindCustomer(st.next.customers, j) == FindCustomer(s.customers, j))
      && st.next.classes == s.classes && st.next.attendanceRecords == s.attendanceRecords
  {
    var status := ThawedStatus(c, now);
    var p := NoCustomerChange.(status := Some(status));
    var st := UnfreezeStep(s, customerId, now);
    assert st.next == UpdateCustomerStep(s, customerId, p);
    assert st.result.value == status;
    UpdateCustomerFinds(s, customerId, p, c);
    assert ApplyCustomerPatch(c, p) == c.(status := status);
    if j != customerId {
      UpdateCustomerKeeps(s, customerId, p, j);
    }
  }

  /**
   * Freezing an unfrozen membership and then unfreezing it at `now` leaves it active or expired
   * according to its end date, with exactly one more period in its history than before.
   */
  lemma FreezeThenUnfreeze(s: Store, customerId: int, startDate: Date, endDate: Date, reason: string, periodId: int, createdAt: int, now: int, c: Customer)
    requires FindCustomer(s.customers, customerId) == Some(c) && c.status != Frozen
    ensures var frozen := FreezeStep(s, customerId, startDate, endDate, reason, periodId, createdAt).next;
      var thawed := UnfreezeStep(frozen, customerId, now);
      && thawed.result.Ok?
      && thawed.result.value == (if IsPast(c.endDate, now) then Expired else Active)
      && FindCustomer(thawed.next.customers, customerId).Some?
      && FindCustomer(thawed.next.customers, customerId).value.status == thawed.result.value
      && FindCustomer(thawed.next.customers, customerId).value.freezePeriods
           == c.freezePeriods + [FreezePeriod(periodId, startDate, endDate, reason, createdAt)]
  {
    var period := FreezePeriod(periodId, startDate, endDate, reason, createdAt);
    var frozen := FreezeStep(s, customerId, startDate, endDate, reason, periodId, createdAt).next;
    FreezeEffect(s, customerId, startDate, endDate, reason, periodId, createdAt, c, customerId);
    var c1 := ApplyCustomerPatch(c, FreezePatch(c, period));
    FreezePatchEffect(c, period);
    UnfreezeEffect(frozen, customerId, now, c1, customerId);
  }

  /** The freeze history only grows: freezing extends it and unfreezing keeps it, for every customer. */
  lemma FreezeHistoryGrows(s: Store, customerId: int, startDate: Date, endDate: Date, reason: string, periodId: int, createdAt: int, now: int, j: int, c: Customer)
    requires FindCustomer(s.customers, j) == Some(c)
    ensures var next := FreezeStep(s, customerId, startDate, endDate, reason, periodId, createdAt).next;
      FindCustomer(next.customers, j).Some? && c.freezePeriods <= FindCustomer(next.customers, j).value.freezePeriods
    ensures var next := UnfreezeStep(s, customerId, now).next;
      FindCustomer(next.customers, j).Some? && FindCustomer(next.customers, j).value.freezePeriods == c.freezePeriods
  {
    FreezeRefusals(s, customerId, startDate, endDate, reason, periodId, createdAt);
    UnfreezeRefusals(s, customerId, now);
    if j == customerId {
      if c.status != Frozen {
        FreezeEffect(s, customerId, startDate, endDate, reason, periodId, createdAt, c, j);
        FreezePatchEffect(c, FreezePeriod(periodId, startDate, endDate, reason, createdAt));
      } else {
        UnfreezeEffect(s, customerId, now, c, j);
      }
    } else {
      match FindCustomer(s.customers, customerId)
      case None =>
      case Some(c0) =>
        if c0.status != Frozen {
          FreezeEffect(s, customerId, startDate, endDate, reason, periodId, createdAt, c0, j);
        } else {
          UnfreezeEffect(s, customerId, now, c0, j);
        }
    }
  }

  /** The query reports frozen exactly for a known customer whose status is frozen, whatever the periods say. */
  lemma CheckFreezeStatusFrozenIff(customers: seq<Customer>, customerId: int, now: int)
    ensures IsFrozen(CheckFreezeStatus(customers, customerId, now)) <==>
      FindCustomer(customers, customerId).Some? && FindCustomer(customers, customerId).value.status == Frozen
    ensures FindCustomer(customers, customerId).None? ==> CheckFreezeStatus(customers, customerId, now) == NoCustomer
  {
  }

  /**
   * The periods reported in force are exactly the customer's periods that cover `now`, in history
   * order and each as often as the history holds it, and the reported total is the days of the
   * history's covering periods summed.
   */
  lemma CheckFreezeStatusActive(customers: seq<Customer>, customerId: int, now: int, c: Customer)
    requires FindCustomer(customers, customerId) == Some(c)
    ensures var st := CheckFreezeStatus(customers, customerId, now);
      && st.Status?
      && (forall p :: p in st.activeFreezes <==> p in c.freezePeriods && CoversNow(p, now))
      && (forall p :: multiset(st.activeFreezes)[p] == if CoversNow(p, now) then multiset(c.freezePeriods)[p] else 0)
      && IsSubsequence(st.activeFreezes, c.freezePeriods)
      && st.totalFreezeDays == CoveredDays(c.freezePeriods, now)
  {
    var inForce := (p: FreezePeriod) => CoversNow(p, now);
    forall p: FreezePeriod
      ensures multiset(Filter(c.freezePeriods, inForce))[p] == if CoversNow(p, now) then multiset(c.freezePeriods)[p] else 0
    {
      FilterMultiplicity(c.freezePeriods, inForce, p);
    }
    TotalDaysOfInForce(c.freezePeriods, now);
  }

  /**
   * Reference sum over a whole history: each period in force at `now` adds its days, every other
   * period adds nothing.
   */
  function CoveredDays(ps: seq<FreezePeriod>, now: int): int {
    if ps == [] then 0
    else (if CoversNow(ps[0], now) then PeriodDays(ps[0]) else 0) + CoveredDays(ps[1..], now)
  }

  /** The total over periods in force adds up over a concatenation. */
  lemma {:induction false} TotalDaysAppend(a: seq<FreezePeriod>, b: seq<FreezePeriod>, now: int)
    requires forall i :: 0 <= i < |a| ==> CoversNow(a[i], now)
    requires forall i :: 0 <= i < |b| ==> CoversNow(b[i], now)
    ensures forall i :: 0 <= i < |a + b| ==> CoversNow((a + b)[i], now)
    ensures TotalDays(a + b, now) == TotalDays(a, now) + TotalDays(b, now)
    decreases |b|
  {
    assert forall i :: 0 <= i < |a + b| ==> CoversNow((a + b)[i], now) by {
      forall i | 0 <= i < |a + b| ensures CoversNow((a + b)[i], now) {
        if i < |a| { assert (a + b)[i] == a[i]; } else { assert (a + b)[i] == b[i - |a|]; }
      }
    }
    if b == [] {
      assert a + b == a;
    } else {
      var b' := b[..|b| - 1];
      assert forall i :: 0 <= i < |b'| ==> b'[i] == b[i];
      TotalDaysAppend(a, b', now);
      assert (a + b)[..|a + b| - 1] == a + b';
      assert (a + b)[|a + b| - 1] == b[|b| - 1];
    }
  }

  /** Summing the periods the query keeps gives the reference sum over the whole history. */
  lemma {:induction false} TotalDaysOfInForce(ps: seq<FreezePeriod>, now: int)
    ensures var active := Filter(ps, (p: FreezePeriod) => CoversNow(p, now));
      && (forall i :: 0 <= i < |active| ==> CoversNow(active[i], now))
      && TotalDays(active, now) == CoveredDays(ps, now)
  {
    var inForce := (p: FreezePeriod) => CoversNow(p, now);
    var active := Filter(ps, inForce);
    assert forall i :: 0 <= i < |active| ==> active[i] in active;
    if ps != [] {
      TotalDaysOfInForce(ps[1..], now);
      var rest := Filter(ps[1..], inForce);
      assert forall i :: 0 <= i < |rest| ==> rest[i] in rest;
      if CoversNow(ps[0], now) {
        assert active == [ps[0]] + rest;
        TotalDaysAppend([ps[0]], rest, now);
        assert [ps[0]][..0] == [];
      } else {
        assert active == rest;
      }
    }
  }

  /** Every period in force spans a non-negative number of days, so their total is never negative. */
  lemma {:induction false} TotalDaysNonNegative(ps: seq<FreezePeriod>, now: int)
    requires forall i :: 0 <= i < |ps| ==> CoversNow(ps[i], now)
    ensures TotalDays(ps, now) >= 0
  {
    if ps != [] {
      assert forall i :: 0 <= i < |ps| - 1 ==> ps[..|ps| - 1][i] == ps[i];
      TotalDaysNonNegative(ps[..|ps| - 1], now);
      var p := ps[|ps| - 1];
      assert CoversNow(p, now);
      assert PeriodDays(p) >= 0;
    }
  }

  /** The reported total of freeze days is never negative. */
  lemma CheckFreezeStatusDaysNonNegative(customers: seq<Customer>, customerId: int, now: int)
    ensures var st := CheckFreezeStatus(customers, customerId, now);
      st.Status? ==> st.totalFreezeDays >= 0
  {
    match FindCustomer(customers, customerId)
    case None =>
    case Some(c) =>
      var active := Filter(c.freezePeriods, (p: FreezePeriod) => CoversNow(p, now));
      assert forall i :: 0 <= i < |active| ==> active[i] in active;
      TotalDaysNonNegative(active, now);
  }

  /** Freezing and unfreezing write no balance, so they keep every balance non-negative. */
  lemma FreezeAndUnfreezeKeepBalancesNonNegative(s: Store, customerId: int, startDate: Date, endDate: Date, reason: string, periodId: int, createdAt: int, now: int)
    requires AllBalancesNonNegative(s)
    ensures AllBalancesNonNegative(FreezeStep(s, customerId, startDate, endDate, reason, periodId, createdAt).next)
    ensures AllBalancesNonNegative(UnfreezeStep(s, customerId, now).next)
  {
    match FindCustomer(s.customers, customerId)
    case None =>
    case Some(c) =>
      var period := FreezePeriod(periodId, startDate, endDate, reason, createdAt);
      UpdateKeepsBalancesNonNegative(s, customerId, FreezePatch(c, period));
      UpdateKeepsBalancesNonNegative(s, customerId, NoCustomerChange.(status := Some(ThawedStatus(c, now))));
  }
}
