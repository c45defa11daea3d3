/**
 * Clocking a customer in to a class: a fixed chain of guards decides whether the visit may be
 * recorded; only then is `recordAttendance` run, which charges the class's balance.
 */
module ClockIn {
  import opened Values
  import opened Entities
  import opened DataContext

  /** What the guards established about an admitted visit. */
  datatype Admission = Admission(gymClass: GymClass, available: int, cost: int)

  /** What a successful clock-in reports. */
  datatype CheckIn = CheckIn(record: AttendanceRecord, remainingSessions: int)

  /** `classId` is truthy: present (not `null` or `NaN`) and not 0. */
  predicate ClassGiven(classId: Option<int>) {
    classId.Some? && classId.value != 0
  }

  /**
   * The guard chain of `clockIn`, in the order the application checks it: the customer exists,
   * is not expired, is not frozen, a class was chosen, the class exists, the customer is
   * enrolled in it, and their balance for it covers the visit's cost.
   */
  function Admit(s: Store, customerId: int, classId: Option<int>): Result<Admission, LedgerError> {
    match FindCustomer(s.customers, customerId)
    case None => Err(CustomerNotFound)
    case Some(c) => AdmitCustomer(c, s.classes, classId)
  }

  /** The guards that follow once the customer `c` has been found. */
  function AdmitCustomer(c: Customer, classes: seq<GymClass>, classId: Option<int>): Result<Admission, LedgerError> {
    if c.status == Expired then Err(MembershipExpired)
    else if c.status == Frozen then Err(MembershipFrozen)
    else if !ClassGiven(classId) then Err(ClassRequired)
    else
      match FindClass(classes, classId.value)
      case None => Err(ClassNotFound)
      case Some(g) => AdmitToClass(c, g, classId.value)
  }

  /** The guards that follow once the class `g`, with id `k`, has been found. */
  function AdmitToClass(c: Customer, g: GymClass, k: int): Result<Admission, LedgerError> {
    if k !in c.enrolledClasses then Err(NotEnrolled(g.name))
    else if Balance(c, k) < SessionsPerVisit(g) then Err(NotEnoughSessions(g.name, SessionsPerVisit(g), Balance(c, k)))
    else Ok(Admission(g, Balance(c, k), SessionsPerVisit(g)))
  }

  /** `clockIn(customerId, classId)`: a refused visit leaves the store alone; an admitted one is recorded. */
  function ClockInStep(s: Store, customerId: int, classId: Option<int>, recordId: int, timestamp: int): Step<Result<CheckIn, LedgerError>> {
    match Admit(s, customerId, classId)
    case Err(e) => Step(s, Err(e))
    case Ok(a) =>
      var st := RecordAttendanceStep(s, customerId, classId.value, recordId, timestamp);
      Step(st.next, Ok(CheckIn(st.result, a.available - a.cost)))
  }

  /** `clockIn`, run against the provider. */
  method ClockIn(repo: Repository, customerId: int, classId: Option<int>, recordId: int, timestamp: int)
      returns (r: Result<CheckIn, LedgerError>)
    modifies repo
    ensures repo.State() == ClockInStep(old(repo.State()), customerId, classId, recordId, timestamp).next
    ensures r == ClockInStep(old(repo.State()), customerId, classId, recordId, timestamp).result
  {
    var s := repo.State();
    ghost var st := ClockInStep(s, customerId, classId, recordId, timestamp);
    var admission := Admit(s, customerId, classId);
    if admission.Err? {
      ClockInRefused(s, customerId, classId, recordId, timestamp);
      r := Err(admission.error);
      assert r.error == st.result.error;
      return;
    }
    ClockInAdmitted(s, customerId, classId, recordId, timestamp, admission.value);
    var record := repo.RecordAttendance(customerId, classId.value, recordId, timestamp);
    r := Ok(CheckIn(record, admission.value.available - admission.value.cost));
    assert r.value == st.result.value;
  }

  /** A refused clock-in reports the guard's error and changes nothing. */
  lemma ClockInRefused(s: Store, customerId: int, classId: Option<int>, recordId: int, timestamp: int)
    requires Admit(s, customerId, classId).Err?
    ensures ClockInStep(s, customerId, classId, recordId, timestamp) == Step(s, Err(Admit(s, customerId, classId).error))
  {
  }

  /** An admitted clock-in is the attendance being recorded, reported with the balance less the cost. */
  lemma ClockInAdmitted(s: Store, customerId: int, classId: Option<int>, recordId: int, timestamp: int, a: Admission)
    requires Admit(s, customerId, classId).Ok? && Admit(s, customerId, classId).value == a
    ensures classId.Some?
    ensures var rec := RecordAttendanceStep(s, customerId, classId.value, recordId, timestamp);
      var st := ClockInStep(s, customerId, classId, recordId, timestamp);
      && st.next == rec.next
      && st.result.Ok?
      && st.result.value == CheckIn(rec.result, a.available - a.cost)
  {
    AdmittedHasClass(s, customerId, classId);
    var st := ClockInStep(s, customerId, classId, recordId, timestamp);
    var rec := RecordAttendanceStep(s, customerId, classId.value, recordId, timestamp);
    assert st.result.Ok? && st.result.value.record == rec.result;
    assert st.result.value.remainingSessions == a.available - a.cost;
  }

  /** Only a chosen class can be admitted. */
  lemma AdmittedHasClass(s: Store, customerId: int, classId: Option<int>)
    requires Admit(s, customerId, classId).Ok?
    ensures ClassGiven(classId)
  {
  }

  // ---------------------------------------------------------------- what the guards promise

  /**
   * The refusals that concern the customer, in order; each is returned before anything is
   * recorded, so a refused clock-in leaves the store unchanged.
   */
  lemma ClockInRefusals(s: Store, customerId: int, classId: Option<int>, recordId: int, timestamp: int, c: Customer)
    requires FindCustomer(s.customers, customerId) == Some(c)
    ensures var st := ClockInStep(s, customerId, classId, recordId, timestamp);
      && (st.result.Err? ==> st.next == s)
      && (c.status == Expired ==> st.result == Err(MembershipExpired))
      && (c.status == Frozen ==> st.result == Err(MembershipFrozen))
      && (c.status == Active && !ClassGiven(classId) ==> st.result == Err(ClassRequired))
      && ((c.status == Active && ClassGiven(classId) && FindClass(s.classes, classId.value).None?)
            ==> st.result == Err(ClassNotFound))
  {
  }

  /** The refusals that concern the chosen class `g`, in order: not enrolled, then not enough sessions. */
  lemma ClockInClassRefusals(s: Store, customerId: int, k: int, recordId: int, timestamp: int, c: Customer, g: GymClass)
    requires FindCustomer(s.customers, customerId) == Some(c) && c.status == Active
    requires k != 0 && FindClass(s.classes, k) == Some(g)
    ensures var st := ClockInStep(s, customerId, Some(k), recordId, timestamp);
      && (k !in c.enrolledClasses ==> st == Step(s, Err(NotEnrolled(g.name))))
      && ((k in c.enrolledClasses && Balance(c, k) < SessionsPerVisit(g))
            ==> st == Step(s, Err(NotEnoughSessions(g.name, SessionsPerVisit(g), Balance(c, k)))))
      && ((k in c.enrolledClasses && Balance(c, k) >= SessionsPerVisit(g))
            ==> st.result.Ok? && st.result.value.remainingSessions == Balance(c, k) - SessionsPerVisit(g))
  {
    assert Admit(s, customerId, Some(k)) == AdmitToClass(c, g, k);
  }

  /** An unknown customer is refused first, and nothing changes. */
  lemma ClockInUnknownCustomer(s: Store, customerId: int, classId: Option<int>, recordId: int, timestamp: int)
    requires FindCustomer(s.customers, customerId).None?
    ensures ClockInStep(s, customerId, classId, recordId, timestamp) == Step(s, Err(CustomerNotFound))
  {
  }

  /**
   * A clock-in succeeds exactly when the customer exists and is active, a class was chosen and
   * exists, the customer is enrolled in it, and their balance for it (0 when absent) is at least
   * the class's cost per visit (1 when it is 0).
   */
  lemma ClockInSucceedsIff(s: Store, customerId: int, classId: Option<int>, recordId: int, timestamp: int)
    ensures ClockInStep(s, customerId, classId, recordId, timestamp).result.Ok? <==>
      && FindCustomer(s.customers, customerId).Some?
      && FindCustomer(s.customers, customerId).value.status == Active
      && ClassGiven(classId)
      && FindClass(s.classes, classId.value).Some?
      && classId.value in FindCustomer(s.customers, customerId).value.enrolledClasses
      && Balance(FindCustomer(s.customers, customerId).value, classId.value)
           >= SessionsPerVisit(FindClass(s.classes, classId.value).value)
  {
  }

  /** A refused clock-in, repeated on the state it left, is refused again with the same error. */
  lemma ClockInFailureIdempotent(s: Store, customerId: int, classId: Option<int>, recordId: int, timestamp: int, recordId': int, timestamp': int)
    requires ClockInStep(s, customerId, classId, recordId, timestamp).result.Err?
    ensures var st := ClockInStep(s, customerId, classId, recordId, timestamp);
      ClockInStep(st.next, customerId, classId, recordId', timestamp') == st
  {
  }

  /** Calling without a class, as the customer detail view does, is refused for every active customer. */
  lemma ClockInWithoutClass(s: Store, customerId: int, recordId: int, timestamp: int, c: Customer)
    requires FindCustomer(s.customers, customerId) == Some(c) && c.status == Active
    ensures ClockInStep(s, customerId, None, recordId, timestamp) == Step(s, Err(ClassRequired))
  {
  }

  /** Overwriting the drop-in balance changes that field of the record and no other. */
  lemma DropInOverwrite(c: Customer, v: int)
    ensures ApplyCustomerPatch(c, NoCustomerChange.(dropInSessions := Some(v))) == c.(dropInSessions := v)
  {
  }

  /** The guards after the lookup never read the drop-in balance. */
  lemma AdmitCustomerIgnoresDropIn(c: Customer, classes: seq<GymClass>, classId: Option<int>, v: int)
    ensures AdmitCustomer(c.(dropInSessions := v), classes, classId) == AdmitCustomer(c, classes, classId)
  {
    var c' := c.(dropInSessions := v);
    assert c'.status == c.status && c'.enrolledClasses == c.enrolledClasses;
    assert forall k :: Balance(c', k) == Balance(c, k);
  }

  /** The customer's drop-in balance plays no part in the decision: setting it to anything gives the same verdict. */
  lemma AdmitIgnoresDropIn(s: Store, customerId: int, classId: Option<int>, id: int, v: int)
    ensures Admit(UpdateCustomerStep(s, id, NoCustomerChange.(dropInSessions := Some(v))), customerId, classId)
      == Admit(s, customerId, classId)
  {
    var p := NoCustomerChange.(dropInSessions := Some(v));
    var s' := UpdateCustomerStep(s, id, p);
    assert s'.classes == s.classes;
    if customerId != id {
      UpdateCustomerKeeps(s, id, p, customerId);
    } else {
      match FindCustomer(s.customers, customerId)
      case None =>
        UpdateCustomerMisses(s, id, p);
      case Some(c) =>
        UpdateCustomerFinds(s, id, p, c);
        DropInOverwrite(c, v);
        AdmitCustomerIgnoresDropIn(c, s.classes, classId, v);
    }
  }

  /** A customer who is not enrolled in the class is refused whatever their drop-in balance. */
  lemma UnenrolledRefusedDespiteDropIn(s: Store, customerId: int, k: int, recordId: int, timestamp: int, c: Customer, g: GymClass)
    requires FindCustomer(s.customers, customerId) == Some(c) && c.status == Active
    requires k != 0 && FindClass(s.classes, k) == Some(g) && k !in c.enrolledClasses
    requires c.dropInSessions > 0
    ensures ClockInStep(s, customerId, Some(k), recordId, timestamp) == Step(s, Err(NotEnrolled(g.name)))
  {
    ClockInClassRefusals(s, customerId, k, recordId, timestamp, c, g);
  }

  /** What the guards admit for an enrolled customer with enough sessions: the class, its balance and its cost. */
  lemma AdmitFinds(s: Store, customerId: int, k: int, c: Customer, g: GymClass)
    requires FindCustomer(s.customers, customerId) == Some(c) && FindClass(s.classes, k) == Some(g)
    requires Admit(s, customerId, Some(k)).Ok?
    ensures Admit(s, customerId, Some(k)).value == Admission(g, Balance(c, k), SessionsPerVisit(g))
    ensures c.status == Active && k in c.enrolledClasses && Balance(c, k) >= SessionsPerVisit(g)
    ensures VisitCost(s.classes, k) == SessionsPerVisit(g)
  {
    assert Admit(s, customerId, Some(k)) == AdmitToClass(c, g, k);
  }

  /** A successful check-in into class `k` reports the balance less the cost per visit and appends its record. */
  lemma ClockInReports(s: Store, customerId: int, k: int, recordId: int, timestamp: int, c: Customer, g: GymClass)
    requires FindCustomer(s.customers, customerId) == Some(c) && FindClass(s.classes, k) == Some(g)
    requires ClockInStep(s, customerId, Some(k), recordId, timestamp).result.Ok?
    ensures var st := ClockInStep(s, customerId, Some(k), recordId, timestamp);
      && st.result.value.remainingSessions == Balance(c, k) - SessionsPerVisit(g)
      && st.result.value.remainingSessions >= 0
      && st.next.attendanceRecords == s.attendanceRecords + [st.result.value.record]
  {
    ClockInOkAdmitted(s, customerId, Some(k), recordId, timestamp);
    AdmitFinds(s, customerId, k, c, g);
    var a := Admission(g, Balance(c, k), SessionsPerVisit(g));
    ClockInAdmitted(s, customerId, Some(k), recordId, timestamp, a);
    RecordAttendanceAppends(s, customerId, k, recordId, timestamp, k);
  }

  /**
   * A successful check-in into class `k` leaves the customer's status, drop-in balance, freeze
   * periods and enrolment as they were, leaves every other class balance alone, and stores the
   * reduced balance for `k` whenever the customer had an entry for it or the class costs something.
   */
  lemma ClockInDebits(s: Store, customerId: int, k: int, recordId: int, timestamp: int, c: Customer, g: GymClass, j: int)
    requires FindCustomer(s.customers, customerId) == Some(c) && FindClass(s.classes, k) == Some(g)
    requires ClockInStep(s, customerId, Some(k), recordId, timestamp).result.Ok?
    ensures var st := ClockInStep(s, customerId, Some(k), recordId, timestamp);
      && FindCustomer(st.next.customers, customerId).Some?
      && var c' := FindCustomer(st.next.customers, customerId).value;
      && c'.status == c.status
      && c'.dropInSessions == c.dropInSessions
      && c'.freezePeriods == c.freezePeriods
      && c'.enrolledClasses == c.enrolledClasses
      && (j != k ==> Balance(c', j) == Balance(c, j))
      && (((c.classSessions.Some? && k in c.classSessions.value) || SessionsPerVisit(g) > 0) ==>
            Balance(c', k) == Balance(c, k) - SessionsPerVisit(g))
  {
    ClockInOkAdmitted(s, customerId, Some(k), recordId, timestamp);
    AdmitFinds(s, customerId, k, c, g);
    var a := Admission(g, Balance(c, k), SessionsPerVisit(g));
    ClockInAdmitted(s, customerId, Some(k), recordId, timestamp, a);
    RecordAttendanceFinds(s, customerId, k, recordId, timestamp, c);
    var record := AttendanceRecord(recordId, customerId, k, timestamp);
    var c' := ApplyCustomerPatch(c, AttendancePatch(c, k, SessionsPerVisit(g), record));
    AttendancePatchEffect(c, k, SessionsPerVisit(g), record, j);
    assert c'.enrolledClasses == Enrol(c.enrolledClasses, k) == c.enrolledClasses;
  }

  /** A clock-in that succeeds was admitted by the guards. */
  lemma ClockInOkAdmitted(s: Store, customerId: int, classId: Option<int>, recordId: int, timestamp: int)
    requires ClockInStep(s, customerId, classId, recordId, timestamp).result.Ok?
    ensures Admit(s, customerId, classId).Ok?
  {
  }

  /**
   * The figure reported and the balance stored can disagree when a class costs a negative number
   * of sessions (the class form does not forbid it) and the customer has no entry for it: the
   * visit is admitted, 1 session is reported as remaining, yet no balance is stored.
   */
  lemma NegativeCostReportsPhantomBalance()
    ensures var c := Customer(1, "A", "1", "a@b", "Custom", 0, Unset, Unset, 0, Active, [7], Some(map[]), 0, [], []);
      var g := GymClass(7, "Open mat", "", "", 10, 0, "", -1, 0, 0);
      var s := Store([c], [g], []);
      var st := ClockInStep(s, 1, Some(7), 100, 0);
      && st.result == Ok(CheckIn(AttendanceRecord(100, 1, 7, 0), 1))
      && FindCustomer(st.next.customers, 1).Some?
      && FindCustomer(st.next.customers, 1).value.classSessions == Some(map[])
      && Balance(FindCustomer(st.next.customers, 1).value, 7) == 0
  {
    var c := Customer(1, "A", "1", "a@b", "Custom", 0, Unset, Unset, 0, Active, [7], Some(map[]), 0, [], []);
    var g := GymClass(7, "Open mat", "", "", 10, 0, "", -1, 0, 0);
    var s := Store([c], [g], []);
    assert FindCustomer(s.customers, 1) == Some(c);
    assert FindClass(s.classes, 7) == Some(g);
    ClockInReports(s, 1, 7, 100, 0, c, g);
    ClockInDebits(s, 1, 7, 100, 0, c, g, 7);
    RecordAttendanceFinds(s, 1, 7, 100, 0, c);
  }
}
