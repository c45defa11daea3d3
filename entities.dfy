/**
 * The records the gym application stores: customers with their per-class session balances,
 * classes, attendance records and freeze periods, together with the partial updates
 * (`{ ...record, ...updates }`) the application applies to them and the errors its ledger
 * operations report.
 */
module Entities {
  import opened Values

  /** A customer's membership status; the application writes only these three. */
  datatype Status = Active | Frozen | Expired

  /** The string the application stores for a status. */
  function StatusName(s: Status): (r: string)
    ensures r == "active" <==> s == Active
    ensures r == "frozen" <==> s == Frozen
    ensures r == "expired" <==> s == Expired
  {
    match s
    case Active => "active"
    case Frozen => "frozen"
    case Expired => "expired"
  }

  /** One clock-in: who attended which class, and when (milliseconds since the epoch). */
  datatype AttendanceRecord = AttendanceRecord(id: int, customerId: int, classId: int, timestamp: int)

  /** One entry of a customer's freeze history. */
  datatype FreezePeriod = FreezePeriod(id: int, startDate: Date, endDate: Date, reason: string, createdAt: int)

  /**
   * A customer. `classSessions` maps a class id to the sessions left for that class; it is absent
   * for customers registered through the form until a top-up or a clock-in writes it.
   */
  datatype Customer = Customer(
    id: int,
    name: string,
    phone: string,
    email: string,
    membershipType: string,
    subscriptionFee: int,
    startDate: Date,
    endDate: Date,
    remainingSessions: int,
    status: Status,
    enrolledClasses: seq<int>,
    classSessions: Option<map<int, int>>,
    dropInSessions: int,
    attendanceLog: seq<AttendanceRecord>,
    freezePeriods: seq<FreezePeriod>)

  /** A class of the gym. */
  datatype GymClass = GymClass(
    id: int,
    name: string,
    instructor: string,
    schedule: string,
    capacity: int,
    enrolledCount: int,
    description: string,
    sessionsPerVisit: int,
    monthlyFee: int,
    dropInFee: int)

  /** The fields the customer registration form submits. */
  datatype CustomerDraft = CustomerDraft(
    name: string,
    phone: string,
    email: string,
    membershipType: string,
    subscriptionFee: int,
    startDate: Date,
    endDate: Date,
    remainingSessions: int,
    enrolledClasses: seq<int>)

  /** The fields the class form submits. */
  datatype ClassDraft = ClassDraft(
    name: string,
    instructor: string,
    schedule: string,
    capacity: int,
    description: string,
    sessionsPerVisit: int,
    monthlyFee: int,
    dropInFee: int)

  /** The `updates` object of `updateCustomer`: each present field overrides the stored one. */
  datatype CustomerPatch = CustomerPatch(
    name: Option<string>,
    phone: Option<string>,
    email: Option<string>,
    membershipType: Option<string>,
    subscriptionFee: Option<int>,
    startDate: Option<Date>,
    endDate: Option<Date>,
    remainingSessions: Option<int>,
    status: Option<Status>,
    enrolledClasses: Option<seq<int>>,
    classSessions: Option<Option<map<int, int>>>,
    dropInSessions: Option<int>,
    attendanceLog: Option<seq<AttendanceRecord>>,
    freezePeriods: Option<seq<FreezePeriod>>)

  /** The empty `updates` object. */
  const NoCustomerChange := CustomerPatch(None, None, None, None, None, None, None, None, None, None, None, None, None, None)

  /** `{ ...c, ...p }`. */
  function ApplyCustomerPatch(c: Customer, p: CustomerPatch): (r: Customer)
    ensures r.id == c.id
    ensures p == NoCustomerChange ==> r == c
  {
    Customer(
      c.id,
      p.name.GetOr(c.name),
      p.phone.GetOr(c.phone),
      p.email.GetOr(c.email),
      p.membershipType.GetOr(c.membershipType),
      p.subscriptionFee.GetOr(c.subscriptionFee),
      p.startDate.GetOr(c.startDate),
      p.endDate.GetOr(c.endDate),
      p.remainingSessions.GetOr(c.remainingSessions),
      p.status.GetOr(c.status),
      p.enrolledClasses.GetOr(c.enrolledClasses),
      p.classSessions.GetOr(c.classSessions),
      p.dropInSessions.GetOr(c.dropInSessions),
      p.attendanceLog.GetOr(c.attendanceLog),
      p.freezePeriods.GetOr(c.freezePeriods))
  }

  /** The `updates` object of `updateClass`. */
  datatype ClassPatch = ClassPatch(
    name: Option<string>,
    instructor: Option<string>,
    schedule: Option<string>,
    capacity: Option<int>,
    enrolledCount: Option<int>,
    description: Option<string>,
    sessionsPerVisit: Option<int>,
    monthlyFee: Option<int>,
    dropInFee: Option<int>)

  /** `{ ...g, ...p }`. */
  function ApplyClassPatch(g: GymClass, p: ClassPatch): (r: GymClass)
    ensures r.id == g.id
  {
    GymClass(
      g.id,
      p.name.GetOr(g.name),
      p.instructor.GetOr(g.instructor),
      p.schedule.GetOr(g.schedule),
      p.capacity.GetOr(g.capacity),
      p.enrolledCount.GetOr(g.enrolledCount),
      p.description.GetOr(g.description),
      p.sessionsPerVisit.GetOr(g.sessionsPerVisit),
      p.monthlyFee.GetOr(g.monthlyFee),
      p.dropInFee.GetOr(g.dropInFee))
  }

  /** The sessions a customer has left for class `classId`: `classSessions[classId] || 0`. */
  function Balance(c: Customer, classId: int): int {
    match c.classSessions
    case Some(m) => if classId in m then m[classId] else 0
    case None => 0
  }

  /** `cls.sessionsPerVisit || 1`: a zero cost per visit is read as one. */
  function SessionsPerVisit(g: GymClass): (r: int)
    ensures r != 0
    ensures g.sessionsPerVisit != 0 ==> r == g.sessionsPerVisit
  {
    if g.sessionsPerVisit == 0 then 1 else g.sessionsPerVisit
  }

  /** The drop-in balance and every stored per-class balance are non-negative. */
  predicate BalancesNonNegative(c: Customer) {
    && c.dropInSessions >= 0
    && match c.classSessions
       case Some(m) => forall k :: k in m ==> m[k] >= 0
       case None => true
  }

  /** `enrolled.includes(id) ? enrolled : [...enrolled, id]`. */
  function Enrol(enrolled: seq<int>, id: int): (r: seq<int>)
    ensures id in r
    ensures id in enrolled ==> r == enrolled
    ensures id !in enrolled ==> r == enrolled + [id]
  {
    if id in enrolled then enrolled else enrolled + [id]
  }

  /** Why a ledger operation refused to act; the application reports each as its own message. */
  datatype LedgerError =
    | CustomerNotFound
    | InvalidSessionCount
    | ClassNotFound
    | MembershipExpired
    | MembershipFrozen
    | ClassRequired
    | NotEnrolled(className: string)
    | NotEnoughSessions(className: string, required: int, available: int)
    | AlreadyFrozen
    | NotFrozen
}
