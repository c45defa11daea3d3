/**
 * The customer card: the status badge, the session total shown on the card, the warning class
 * that total selects, and the enrolled-class count.
 */
module CustomerCard {
  import opened Values
  import opened Collections
  import opened Entities
  import opened DataContext

  /** `getStatusClass(status)`: the badge class for a stored status string. */
  function StatusClass(status: string): (r: string)
    ensures status == "active" || status == "frozen" || status == "expired" ==> r == "badge " + status
    ensures status != "active" && status != "frozen" && status != "expired" ==> r == "badge"
  {
    match status
    case "active" => "badge active"
    case "frozen" => "badge frozen"
    case "expired" => "badge expired"
    case _ => "badge"
  }

  /** Every status the application writes gets its own badge, never the bare default. */
  lemma StatusClassOfStatus(s: Status)
    ensures StatusClass(StatusName(s)) == "badge " + StatusName(s)
    ensures StatusClass(StatusName(s)) != "badge"
  {
  }

  /**
   * The card's total: the sum of the per-class balances when the customer has a `classSessions`
   * record, otherwise `remainingSessions || 0`. Drop-in sessions are not part of it.
   */
  function TotalSessions(c: Customer): int {
    match c.classSessions
    case Some(m) => SumValues(m)
    case None => c.remainingSessions
  }

  /** With non-negative balances (and a non-negative legacy count) the total is non-negative. */
  lemma TotalSessionsNonNegative(c: Customer)
    requires BalancesNonNegative(c)
    requires c.classSessions.None? ==> c.remainingSessions >= 0
    ensures TotalSessions(c) >= 0
  {
    if c.classSessions.Some? {
      SumValuesNonNegative(c.classSessions.value);
    }
  }

  /**
   * A class top-up of `n` raises the total by `n`. A customer without a `classSessions` record
   * gets one holding only the new balance, so from then on `remainingSessions` no longer shows.
   */
  lemma TotalSessionsAfterClassTopUp(c: Customer, classId: int, n: int)
    ensures TotalSessions(ApplyCustomerPatch(c, ClassTopUpPatch(c, classId, n))) ==
      (if c.classSessions.Some? then TotalSessions(c) else 0) + n
  {
    var m := c.classSessions.GetOr(map[]);
    SumValuesUpdate(m, classId, Balance(c, classId) + n);
  }

  /** A drop-in top-up does not change the total. */
  lemma TotalSessionsIgnoresDropIn(c: Customer, n: int)
    ensures TotalSessions(ApplyCustomerPatch(c, DropInPatch(c, n))) == TotalSessions(c)
  {
  }

  /** A visit the balance covers lowers the total by exactly its cost. */
  lemma TotalSessionsAfterVisit(c: Customer, classId: int, cost: int, record: AttendanceRecord)
    requires c.classSessions.Some? && classId in c.classSessions.value
    requires 0 <= cost <= c.classSessions.value[classId]
    ensures TotalSessions(ApplyCustomerPatch(c, AttendancePatch(c, classId, cost, record))) == TotalSessions(c) - cost
  {
    var m := c.classSessions.value;
    assert Debit(m, classId, cost) == m[classId := m[classId] - cost];
    SumValuesUpdate(m, classId, m[classId] - cost);
  }

  /** `getSessionWarning(remaining)`: the warning class for a session total. */
  function SessionWarning(remaining: int): (r: string)
    ensures r == "session-warning critical" <==> remaining == 0
    ensures r == "session-warning low" <==> remaining != 0 && remaining < 5
    ensures r == "" <==> remaining >= 5
  {
    if remaining == 0 then "session-warning critical"
    else if remaining < 5 then "session-warning low"
    else ""
  }

  /** `customer.enrolledClasses?.length || 0`. */
  function EnrolledCount(c: Customer): nat {
    |c.enrolledClasses|
  }

  /** A class top-up or a visit adds one to the count exactly when the class was not yet listed, and never removes one. */
  lemma EnrolledCountGrows(c: Customer, classId: int, n: int, cost: int, record: AttendanceRecord)
    ensures EnrolledCount(ApplyCustomerPatch(c, ClassTopUpPatch(c, classId, n))) ==
      EnrolledCount(c) + (if classId in c.enrolledClasses then 0 else 1)
    ensures EnrolledCount(ApplyCustomerPatch(c, AttendancePatch(c, classId, cost, record))) ==
      EnrolledCount(c) + (if classId in c.enrolledClasses then 0 else 1)
  {
  }
}
