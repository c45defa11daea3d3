/**
 * The data provider: the three collections the application keeps (customers, classes and
 * attendance records), their create/update/delete/lookup operations and the two ledger
 * operations, `addSessions` and `recordAttendance`.
 *
 * Each operation is first written as a function from the current `Store` to the next one (a
 * "step"); the `Repository` class holds the collections as fields and its methods perform those
 * steps in place. Fresh ids and timestamps (`Date.now()`, `new Date()`) are parameters.
 */
module DataContext {
  import opened Values
  import opened JsString
  import opened Collections
  import opened Entities

  /** The provider's state. */
  datatype Store = Store(customers: seq<Customer>, classes: seq<GymClass>, attendanceRecords: seq<AttendanceRecord>)

  /** The store after an operation, and what the operation returned. */
  datatype Step<R> = Step(next: Store, result: R)

  /** The key customers are looked up by. */
  function CustomerKey(c: Customer): int {
    c.id
  }

  /** The key classes are looked up by. */
  function ClassKey(g: GymClass): int {
    g.id
  }

  /** `getCustomer(id)` over a list of customers. */
  function FindCustomer(customers: seq<Customer>, id: int): (r: Option<Customer>)
    ensures r.Some? ==> r.value in customers && r.value.id == id
    ensures r.None? <==> forall c :: c in customers ==> c.id != id
  {
    Find(customers, CustomerKey, id)
  }

  /** `getClass(id)` over a list of classes. */
  function FindClass(classes: seq<GymClass>, id: int): (r: Option<GymClass>)
    ensures r.Some? ==> r.value in classes && r.value.id == id
    ensures r.None? <==> forall g :: g in classes ==> g.id != id
  {
    Find(classes, ClassKey, id)
  }

  /**
   * `parseInt(id, 10)` applied to an id that is already a number: JavaScript turns the number into
   * its decimal text first, and reading that text back gives the number again.
   */
  function ParsedId(id: int): (r: Option<int>)
    ensures r == Some(id)
  {
    ParseIntOfIntToString(id, "");
    assert IntToString(id) + "" == IntToString(id);
    ParseInt(IntToString(id))
  }

  // ---------------------------------------------------------------- customers

  /** The record `addCustomer` builds from the form's fields and a fresh id. */
  function NewCustomer(d: CustomerDraft, id: int): (c: Customer)
    ensures c.id == id && c.status == Active && c.dropInSessions == 0
    ensures c.attendanceLog == [] && c.freezePeriods == [] && c.classSessions == None
    ensures c.name == d.name && c.phone == d.phone && c.email == d.email
    ensures c.membershipType == d.membershipType && c.subscriptionFee == d.subscriptionFee
    ensures c.startDate == d.startDate && c.endDate == d.endDate
    ensures c.remainingSessions == d.remainingSessions && c.enrolledClasses == d.enrolledClasses
  {
    Customer(id, d.name, d.phone, d.email, d.membershipType, d.subscriptionFee, d.startDate, d.endDate,
             d.remainingSessions, Active, d.enrolledClasses, None, 0, [], [])
  }

  /** `addCustomer(d)`: appends the new record and returns it. */
  function AddCustomerStep(s: Store, d: CustomerDraft, id: int): Step<Customer> {
    var c := NewCustomer(d, id);
    Step(s.(customers := s.customers + [c]), c)
  }

  /** `updateCustomer(id, p)`: merges `p` into every customer whose id is `id`. */
  function UpdateCustomerStep(s: Store, id: int, p: CustomerPatch): Store {
    s.(customers := ReplaceWhere(s.customers, CustomerKey, id, (c: Customer) => ApplyCustomerPatch(c, p)))
  }

  /** `deleteCustomer(id)`: drops every customer whose id is `id`. */
  function DeleteCustomerStep(s: Store, id: int): Store {
    s.(customers := RemoveWhere(s.customers, CustomerKey, id))
  }

  // ---------------------------------------------------------------- classes

  /** The record `addClass` builds from the form's fields and a fresh id. */
  function NewClass(d: ClassDraft, id: int): (g: GymClass)
    ensures g.id == id && g.enrolledCount == 0
    ensures g.name == d.name && g.instructor == d.instructor && g.schedule == d.schedule
    ensures g.capacity == d.capacity && g.description == d.description
    ensures g.sessionsPerVisit == d.sessionsPerVisit && g.monthlyFee == d.monthlyFee && g.dropInFee == d.dropInFee
  {
    GymClass(id, d.name, d.instructor, d.schedule, d.capacity, 0, d.description, d.sessionsPerVisit,
             d.monthlyFee, d.dropInFee)
  }

  /** `addClass(d)`: appends the new class and returns it. */
  function AddClassStep(s: Store, d: ClassDraft, id: int): Step<GymClass> {
    var g := NewClass(d, id);
    Step(s.(classes := s.classes + [g]), g)
  }

  /** `updateClass(id, p)`: merges `p` into every class whose id is `id`. */
  function UpdateClassStep(s: Store, id: int, p: ClassPatch): Store {
    s.(classes := ReplaceWhere(s.classes, ClassKey, id, (g: GymClass) => ApplyClassPatch(g, p)))
  }

  /** `deleteClass(id)`: drops every class whose id is `id`. */
  function DeleteClassStep(s: Store, id: int): Store {
    s.(classes := RemoveWhere(s.classes, ClassKey, id))
  }

  // ---------------------------------------------------------------- the session ledger

  /** What a successful `addSessions` reports: a credit to one class, or to the drop-in balance. */
  datatype TopUp = ClassTopUp(classId: int, sessionsAdded: int) | DropInTopUp(sessionsAdded: int)

  /** The update `addSessions` merges for a class top-up: the class's balance grows, and the class is enrolled. */
  function ClassTopUpPatch(c: Customer, classId: int, count: int): CustomerPatch {
    var sessions := c.classSessions.GetOr(map[]);
    NoCustomerChange.(
      classSessions := Some(Some(sessions[classId := Balance(c, classId) + count])),
      enrolledClasses := Some(Enrol(c.enrolledClasses, classId)))
  }

  /** The update `addSessions` merges for a drop-in top-up. */
  function DropInPatch(c: Customer, count: int): CustomerPatch {
    NoCustomerChange.(dropInSessions := Some(c.dropInSessions + count))
  }

  /**
   * The checks `addSessions` makes once the customer is found, in order: `count` must read as a
   * positive integer, and a selected class (given as its id's text; `None` or the empty string,
   * which is falsy, mean a drop-in top-up) must read as an id of an existing class.
   */
  function TopUpRequest(classes: seq<GymClass>, count: string, classId: Option<string>): Result<TopUp, LedgerError> {
    var n := ParseInt(count);
    if n.None? || n.value <= 0 then Err(InvalidSessionCount)
    else if classId.Some? && classId.value != "" then
      var parsed := ParseInt(classId.value);
      if parsed.None? || FindClass(classes, parsed.value).None? then Err(ClassNotFound)
      else Ok(ClassTopUp(parsed.value, n.value))
    else Ok(DropInTopUp(n.value))
  }

  /** The update a top-up merges into the customer `c`. */
  function TopUpPatch(c: Customer, t: TopUp): CustomerPatch {
    match t
    case ClassTopUp(k, n) => ClassTopUpPatch(c, k, n)
    case DropInTopUp(n) => DropInPatch(c, n)
  }

  /** `addSessions(customerId, count, classId)`: an unknown customer first, then the request's checks, then the update. */
  function AddSessionsStep(s: Store, customerId: int, count: string, classId: Option<string>): Step<Result<TopUp, LedgerError>> {
    match FindCustomer(s.customers, customerId)
    case None => Step(s, Err(CustomerNotFound))
    case Some(c) =>
      match TopUpRequest(s.classes, count, classId)
      case Err(e) => Step(s, Err(e))
      case Ok(t) => Step(UpdateCustomerStep(s, customerId, TopUpPatch(c, t)), Ok(t))
  }

  /** `Math.max(0, balance - cost)` for a class the customer already has an entry for; no entry is added. */
  function Debit(sessions: map<int, int>, classId: int, cost: int): (r: map<int, int>)
    ensures r.Keys == sessions.Keys
    ensures forall k :: k in r && k != classId ==> r[k] == sessions[k]
  {
    if classId in sessions then sessions[classId := Max(0, sessions[classId] - cost)] else sessions
  }

  /** The update `recordAttendance` merges into the customer's record. */
  function AttendancePatch(c: Customer, classId: int, cost: int, record: AttendanceRecord): CustomerPatch {
    NoCustomerChange.(
      attendanceLog := Some(c.attendanceLog + [record]),
      classSessions := Some(Some(Debit(c.classSessions.GetOr(map[]), classId, cost))),
      enrolledClasses := Some(Enrol(c.enrolledClasses, classId)))
  }

  /** The session cost `recordAttendance` charges for a visit to `classId`: 1 when the class is unknown. */
  function VisitCost(classes: seq<GymClass>, classId: int): (r: int)
    ensures r != 0
  {
    match FindClass(classes, classId)
    case Some(g) => SessionsPerVisit(g)
    case None => 1
  }

  /**
   * `recordAttendance(customerId, classId)`: always appends the record; a known customer also
   * gets it in their log, is charged the visit and is enrolled in the class.
   */
  function RecordAttendanceStep(s: Store, customerId: int, classId: int, recordId: int, timestamp: int): Step<AttendanceRecord> {
    var record := AttendanceRecord(recordId, customerId, classId, timestamp);
    var logged := s.(attendanceRecords := s.attendanceRecords + [record]);
    var cost := VisitCost(s.classes, classId);
    var parsedClassId := ParsedId(classId).value;
    match FindCustomer(s.customers, customerId)
    case None => Step(logged, record)
    case Some(c) => Step(UpdateCustomerStep(logged, customerId, AttendancePatch(c, parsedClassId, cost, record)), record)
  }

  // ---------------------------------------------------------------- the provider

  /** The provider: the three collections, replaced as a whole by every operation. */
  class Repository {
    var customers: seq<Customer>
    var classes: seq<GymClass>
    var attendanceRecords: seq<AttendanceRecord>

    /** The provider's state as a value. */
    function State(): Store
      reads this
    {
      Store(customers, classes, attendanceRecords)
    }

    /** Starts from `initial`: what was saved, or the seed data when nothing was. */
    constructor (initial: Store)
      ensures State() == initial
    {
      customers := initial.customers;
      classes := initial.classes;
      attendanceRecords := initial.attendanceRecords;
    }

    /** `getCustomer(id)`. */
    function GetCustomer(id: int): (r: Option<Customer>)
      reads this
      ensures r.Some? ==> r.value in customers && r.value.id == id
      ensures r.None? <==> forall c :: c in customers ==> c.id != id
    {
      FindCustomer(customers, id)
    }

    /** `getClass(id)`. */
    function GetClass(id: int): (r: Option<GymClass>)
      reads this
      ensures r.Some? ==> r.value in classes && r.value.id == id
      ensures r.None? <==> forall g :: g in classes ==> g.id != id
    {
      FindClass(classes, id)
    }

    method AddCustomer(d: CustomerDraft, id: int) returns (c: Customer)
      modifies this
      ensures State() == AddCustomerStep(old(State()), d, id).next
      ensures c == AddCustomerStep(old(State()), d, id).result
    {
      c := NewCustomer(d, id);
      customers := customers + [c];
    }

    method UpdateCustomer(id: int, p: CustomerPatch)
      modifies this
      ensures State() == UpdateCustomerStep(old(State()), id, p)
    {
      customers := ReplaceWhere(customers, CustomerKey, id, (c: Customer) => ApplyCustomerPatch(c, p));
    }

    method DeleteCustomer(id: int)
      modifies this
      ensures State() == DeleteCustomerStep(old(State()), id)
    {
      customers := RemoveWhere(customers, CustomerKey, id);
    }

    method AddClass(d: ClassDraft, id: int) returns (g: GymClass)
      modifies this
      ensures State() == AddClassStep(old(State()), d, id).next
      ensures g == AddClassStep(old(State()), d, id).result
    {
      g := NewClass(d, id);
      classes := classes + [g];
    }

    method UpdateClass(id: int, p: ClassPatch)
      modifies this
      ensures State() == UpdateClassStep(old(State()), id, p)
    {
      classes := ReplaceWhere(classes, ClassKey, id, (g: GymClass) => ApplyClassPatch(g, p));
    }

    method DeleteClass(id: int)
      modifies this
      ensures State() == DeleteClassStep(old(State()), id)
    {
      classes := RemoveWhere(classes, ClassKey, id);
    }

    method AddSessions(customerId: int, count: string, classId: Option<string>) returns (r: Result<TopUp, LedgerError>)
      modifies this
      ensures State() == AddSessionsStep(old(State()), customerId, count, classId).next
      ensures r == AddSessionsStep(old(State()), customerId, count, classId).result
    {
      ghost var st := AddSessionsStep(State(), customerId, count, classId);
      AddSessionsRefusals(State(), customerId, count, classId);
      TopUpRequestCases(classes, count, classId);
      var customer := GetCustomer(customerId);
      if customer.None? {
        r := Err(CustomerNotFound);
        assert r.error == st.result.error;
        return;
      }
      var c := customer.value;
      var n := ParseInt(count);
      if n.None? || n.value <= 0 {
        r := Err(InvalidSessionCount);
        assert r.error == st.result.error;
        return;
      }
      if classId.Some? && classId.value != "" {
        var parsed := ParseInt(classId.value);
        if parsed.None? || GetClass(parsed.value).None? {
          r := Err(ClassNotFound);
          assert r.error == st.result.error;
          return;
        }
        AddSessionsClassStep(State(), customerId, count, classId.value, c, n.value, parsed.value);
        UpdateCustomer(customerId, ClassTopUpPatch(c, parsed.value, n.value));
        r := Ok(ClassTopUp(parsed.value, n.value));
        assert r.value == st.result.value;
        return;
      }
      AddSessionsDropInStep(State(), customerId, count, classId, c, n.value);
      UpdateCustomer(customerId, DropInPatch(c, n.value));
      r := Ok(DropInTopUp(n.value));
      assert r.value == st.result.value;
    }

    method RecordAttendance(customerId: int, classId: int, recordId: int, timestamp: int) returns (record: AttendanceRecord)
      modifies this
      ensures State() == RecordAttendanceStep(old(State()), customerId, classId, recordId, timestamp).next
      ensures record == RecordAttendanceStep(old(State()), customerId, classId, recordId, timestamp).result
    {
      record := AttendanceRecord(recordId, customerId, classId, timestamp);
      var cost := VisitCost(classes, classId);
      var customer := GetCustomer(customerId);
      attendanceRecords := attendanceRecords + [record];
      var parsedClassId := ParsedId(classId).value;
      if customer.Some? {
        UpdateCustomer(customerId, AttendancePatch(customer.value, parsedClassId, cost, record));
      }
    }
  }

  // ---------------------------------------------------------------- what the operations promise

  /** `updateCustomer(id, p)` rewrites exactly the records with that id, in place, and nothing else. */
  lemma UpdateCustomerInPlace(s: Store, id: int, p: CustomerPatch)
    ensures var next := UpdateCustomerStep(s, id, p);
      && next.classes == s.classes && next.attendanceRecords == s.attendanceRecords
      && |next.customers| == |s.customers|
      && (forall i :: 0 <= i < |s.customers| && s.customers[i].id != id ==> next.customers[i] == s.customers[i])
      && (forall i :: 0 <= i < |s.customers| && s.customers[i].id == id ==>
            next.customers[i] == ApplyCustomerPatch(s.customers[i], p))
  {
  }

  /** After `updateCustomer(id, p)`, a lookup of `id` finds the record it found before, merged with `p`. */
  lemma UpdateCustomerFinds(s: Store, id: int, p: CustomerPatch, c: Customer)
    requires FindCustomer(s.customers, id) == Some(c)
    ensures FindCustomer(UpdateCustomerStep(s, id, p).customers, id) == Some(ApplyCustomerPatch(c, p))
  {
    FindReplaceWhere(s.customers, CustomerKey, id, (c: Customer) => ApplyCustomerPatch(c, p), id);
  }

  /** `updateCustomer` of an unknown id changes no lookup of it. */
  lemma UpdateCustomerMisses(s: Store, id: int, p: CustomerPatch)
    requires FindCustomer(s.customers, id).None?
    ensures FindCustomer(UpdateCustomerStep(s, id, p).customers, id).None?
  {
    FindReplaceWhere(s.customers, CustomerKey, id, (c: Customer) => ApplyCustomerPatch(c, p), id);
  }

  /** A lookup of any other id is not affected by `updateCustomer(id, p)`. */
  lemma UpdateCustomerKeeps(s: Store, id: int, p: CustomerPatch, j: int)
    requires j != id
    ensures FindCustomer(UpdateCustomerStep(s, id, p).customers, j) == FindCustomer(s.customers, j)
  {
    FindReplaceWhere(s.customers, CustomerKey, id, (c: Customer) => ApplyCustomerPatch(c, p), j);
  }

  /** After `deleteCustomer(id)` no customer has that id; every other lookup, and the order of the rest, is unchanged. */
  lemma DeleteCustomerEffect(s: Store, id: int)
    ensures var next := DeleteCustomerStep(s, id);
      && next.classes == s.classes && next.attendanceRecords == s.attendanceRecords
      && IsSubsequence(next.customers, s.customers)
      && (forall c :: c in next.customers <==> c in s.customers && c.id != id)
      && (forall j :: FindCustomer(next.customers, j) == if j == id then None else FindCustomer(s.customers, j))
  {
    forall j {
      FindRemoveWhere(s.customers, CustomerKey, id, j);
    }
  }

  /**
   * `addCustomer` appends the new record with status active, no drop-in sessions and empty
   * histories; lookups of existing ids are unchanged, and a fresh id now finds the new record.
   */
  lemma AddCustomerEffect(s: Store, d: CustomerDraft, id: int)
    ensures var st := AddCustomerStep(s, d, id);
      && st.next.customers == s.customers + [st.result]
      && st.next.classes == s.classes && st.next.attendanceRecords == s.attendanceRecords
      && st.result == NewCustomer(d, id)
      && (forall j :: FindCustomer(s.customers, j).Some? ==> FindCustomer(st.next.customers, j) == FindCustomer(s.customers, j))
      && (FindCustomer(s.customers, id).None? ==> FindCustomer(st.next.customers, id) == Some(st.result))
  {
    var c := NewCustomer(d, id);
    forall j {
      FindAppend(s.customers, c, CustomerKey, j);
    }
  }

  /** `updateClass(id, p)` rewrites exactly the classes with that id, in place, and nothing else. */
  lemma UpdateClassInPlace(s: Store, id: int, p: ClassPatch)
    ensures var next := UpdateClassStep(s, id, p);
      && next.customers == s.customers && next.attendanceRecords == s.attendanceRecords
      && |next.classes| == |s.classes|
      && (forall i :: 0 <= i < |s.classes| && s.classes[i].id != id ==> next.classes[i] == s.classes[i])
      && (forall i :: 0 <= i < |s.classes| && s.classes[i].id == id ==>
            next.classes[i] == ApplyClassPatch(s.classes[i], p))
  {
  }

  /** After `updateClass(id, p)` a lookup of `id` finds the class merged with `p`; other lookups are unchanged. */
  lemma UpdateClassFinds(s: Store, id: int, p: ClassPatch, g: GymClass, j: int)
    requires FindClass(s.classes, id) == Some(g)
    ensures FindClass(UpdateClassStep(s, id, p).classes, id) == Some(ApplyClassPatch(g, p))
    ensures j != id ==> FindClass(UpdateClassStep(s, id, p).classes, j) == FindClass(s.classes, j)
  {
    FindReplaceWhere(s.classes, ClassKey, id, (g: GymClass) => ApplyClassPatch(g, p), id);
    FindReplaceWhere(s.classes, ClassKey, id, (g: GymClass) => ApplyClassPatch(g, p), j);
  }

  /** After `deleteClass(id)` no class has that id; every other lookup, and the order of the rest, is unchanged. */
  lemma DeleteClassEffect(s: Store, id: int)
    ensures var next := DeleteClassStep(s, id);
      && next.customers == s.customers && next.attendanceRecords == s.attendanceRecords
      && IsSubsequence(next.classes, s.classes)
      && (forall g :: g in next.classes <==> g in s.classes && g.id != id)
      && (forall j :: FindClass(next.classes, j) == if j == id then None else FindClass(s.classes, j))
  {
    forall j {
      FindRemoveWhere(s.classes, ClassKey, id, j);
    }
  }

  /** `addClass` appends the new class with an enrolled count of 0; existing lookups are unchanged. */
  lemma AddClassEffect(s: Store, d: ClassDraft, id: int)
    ensures var st := AddClassStep(s, d, id);
      && st.next.classes == s.classes + [st.result]
      && st.next.customers == s.customers && st.next.attendanceRecords == s.attendanceRecords
      && st.result == NewClass(d, id)
      && (forall j :: FindClass(s.classes, j).Some? ==> FindClass(st.next.classes, j) == FindClass(s.classes, j))
      && (FindClass(s.classes, id).None? ==> FindClass(st.next.classes, id) == Some(st.result))
  {
    var g := NewClass(d, id);
    forall j {
      FindAppend(s.classes, g, ClassKey, j);
    }
  }

  /**
   * The request's checks in order: a count that is not a positive integer, then a selected class
   * that cannot be found; otherwise a class top-up when a class was selected, a drop-in one when not.
   */
  lemma TopUpRequestCases(classes: seq<GymClass>, count: string, classId: Option<string>)
    ensures var r := TopUpRequest(classes, count, classId);
      && ((ParseInt(count).None? || ParseInt(count).value <= 0) ==> r == Err(InvalidSessionCount))
      && ((ParseInt(count).Some? && ParseInt(count).value > 0 && classId.Some? && classId.value != ""
           && (ParseInt(classId.value).None? || FindClass(classes, ParseInt(classId.value).value).None?))
            ==> r == Err(ClassNotFound))
      && ((ParseInt(count).Some? && ParseInt(count).value > 0 && classId.Some? && classId.value != ""
           && ParseInt(classId.value).Some? && FindClass(classes, ParseInt(classId.value).value).Some?)
            ==> r == Ok(ClassTopUp(ParseInt(classId.value).value, ParseInt(count).value)))
      && ((ParseInt(count).Some? && ParseInt(count).value > 0 && (classId.None? || classId.value == ""))
            ==> r == Ok(DropInTopUp(ParseInt(count).value)))
  {
  }

  /** Every accepted request adds a positive number of sessions, to a class that exists when it names one. */
  lemma TopUpRequestAccepted(classes: seq<GymClass>, count: string, classId: Option<string>)
    requires TopUpRequest(classes, count, classId).Ok?
    ensures TopUpRequest(classes, count, classId).value.sessionsAdded > 0
    ensures TopUpRequest(classes, count, classId).value.sessionsAdded == ParseInt(count).value
    ensures TopUpRequest(classes, count, classId).value.ClassTopUp? ==>
      FindClass(classes, TopUpRequest(classes, count, classId).value.classId).Some?
  {
  }

  /** `addSessions` refuses an unknown customer before anything else; any refusal leaves the store as it was. */
  lemma AddSessionsRefusals(s: Store, customerId: int, count: string, classId: Option<string>)
    ensures var st := AddSessionsStep(s, customerId, count, classId);
      && (st.result.Err? ==> st.next == s)
      && (FindCustomer(s.customers, customerId).None? ==> st.next == s && st.result.Err? && st.result.error == CustomerNotFound)
      && (FindCustomer(s.customers, customerId).Some? ==>
            st.result.Err? == TopUpRequest(s.classes, count, classId).Err?
            && (st.result.Err? ==> st.result.error == TopUpRequest(s.classes, count, classId).error))
  {
  }

  /** An accepted top-up for a known customer is its update merged into that customer, reported back. */
  lemma AddSessionsTopUp(s: Store, customerId: int, count: string, classId: Option<string>, c: Customer, t: TopUp)
    requires FindCustomer(s.customers, customerId) == Some(c)
    requires TopUpRequest(s.classes, count, classId) == Ok(t)
    ensures AddSessionsStep(s, customerId, count, classId).next == UpdateCustomerStep(s, customerId, TopUpPatch(c, t))
    ensures AddSessionsStep(s, customerId, count, classId).result.Ok?
    ensures AddSessionsStep(s, customerId, count, classId).result.value == t
  {
  }

  /** A valid drop-in top-up is the drop-in update merged into the customer. */
  lemma AddSessionsDropInStep(s: Store, customerId: int, count: string, classId: Option<string>, c: Customer, n: int)
    requires FindCustomer(s.customers, customerId) == Some(c)
    requires ParseInt(count) == Some(n) && n > 0
    requires classId.None? || classId == Some("")
    ensures AddSessionsStep(s, customerId, count, classId).next == UpdateCustomerStep(s, customerId, DropInPatch(c, n))
    ensures AddSessionsStep(s, customerId, count, classId).result.Ok?
    ensures AddSessionsStep(s, customerId, count, classId).result.value == DropInTopUp(n)
  {
    TopUpRequestCases(s.classes, count, classId);
    AddSessionsTopUp(s, customerId, count, classId, c, DropInTopUp(n));
  }

  /** A valid class top-up is the class-credit update merged into the customer. */
  lemma AddSessionsClassStep(s: Store, customerId: int, count: string, classId: string, c: Customer, n: int, k: int)
    requires FindCustomer(s.customers, customerId) == Some(c)
    requires ParseInt(count) == Some(n) && n > 0
    requires classId != "" && ParseInt(classId) == Some(k) && FindClass(s.classes, k).Some?
    ensures AddSessionsStep(s, customerId, count, Some(classId)).next == UpdateCustomerStep(s, customerId, ClassTopUpPatch(c, k, n))
    ensures AddSessionsStep(s, customerId, count, Some(classId)).result.Ok?
    ensures AddSessionsStep(s, customerId, count, Some(classId)).result.value == ClassTopUp(k, n)
  {
    TopUpRequestCases(s.classes, count, Some(classId));
    AddSessionsTopUp(s, customerId, count, Some(classId), c, ClassTopUp(k, n));
  }

  /**
   * A drop-in top-up raises the customer's drop-in balance by exactly the count and changes
   * nothing else about them, nor any other customer, class or record.
   */
  lemma AddSessionsDropIn(s: Store, customerId: int, count: string, classId: Option<string>, c: Customer, n: int, j: int)
    requires FindCustomer(s.customers, customerId) == Some(c)
    requires ParseInt(count) == Some(n) && n > 0
    requires classId.None? || classId == Some("")
    ensures AddSessionsStep(s, customerId, count, classId).result == Ok(DropInTopUp(n))
    ensures FindCustomer(AddSessionsStep(s, customerId, count, classId).next.customers, customerId)
      == Some(ApplyCustomerPatch(c, DropInPatch(c, n)))
    ensures j != customerId ==>
      FindCustomer(AddSessionsStep(s, customerId, count, classId).next.customers, j) == FindCustomer(s.customers, j)
    ensures AddSessionsStep(s, customerId, count, classId).next.classes == s.classes
    ensures AddSessionsStep(s, customerId, count, classId).next.attendanceRecords == s.attendanceRecords
  {
    var p := DropInPatch(c, n);
    AddSessionsDropInStep(s, customerId, count, classId, c, n);
    UpdateCustomerFinds(s, customerId, p, c);
    if j != customerId {
      UpdateCustomerKeeps(s, customerId, p, j);
    }
  }

  /** The record a drop-in top-up leaves: `count` more drop-in sessions and nothing else changed. */
  lemma DropInPatchEffect(c: Customer, n: int)
    ensures ApplyCustomerPatch(c, DropInPatch(c, n)) == c.(dropInSessions := c.dropInSessions + n)
  {
  }

  /** The record a class top-up leaves: `count` more sessions for the class, enrolled in it, nothing else changed. */
  lemma ClassTopUpEffect(c: Customer, k: int, n: int, j: int)
    ensures var c' := ApplyCustomerPatch(c, ClassTopUpPatch(c, k, n));
      && Balance(c', k) == Balance(c, k) + n
      && c'.classSessions.Some? && k in c'.classSessions.value
      && (j != k ==> Balance(c', j) == Balance(c, j))
      && k in c'.enrolledClasses
      && c.enrolledClasses <= c'.enrolledClasses
      && (k in c.enrolledClasses ==> c'.enrolledClasses == c.enrolledClasses)
      && c'.(classSessions := c.classSessions, enrolledClasses := c.enrolledClasses) == c
  {
  }

  /** A class top-up merges the class credit into the record a lookup of the customer finds, and touches nothing else. */
  lemma AddSessionsToClass(s: Store, customerId: int, count: string, classId: string, c: Customer, n: int, k: int, j: int)
    requires FindCustomer(s.customers, customerId) == Some(c)
    requires ParseInt(count) == Some(n) && n > 0
    requires classId != "" && ParseInt(classId) == Some(k) && FindClass(s.classes, k).Some?
    ensures AddSessionsStep(s, customerId, count, Some(classId)).result == Ok(ClassTopUp(k, n))
    ensures FindCustomer(AddSessionsStep(s, customerId, count, Some(classId)).next.customers, customerId)
      == Some(ApplyCustomerPatch(c, ClassTopUpPatch(c, k, n)))
    ensures j != customerId ==>
      FindCustomer(AddSessionsStep(s, customerId, count, Some(classId)).next.customers, j) == FindCustomer(s.customers, j)
    ensures AddSessionsStep(s, customerId, count, Some(classId)).next.classes == s.classes
    ensures AddSessionsStep(s, customerId, count, Some(classId)).next.attendanceRecords == s.attendanceRecords
  {
    var p := ClassTopUpPatch(c, k, n);
    AddSessionsClassStep(s, customerId, count, classId, c, n, k);
    UpdateCustomerFinds(s, customerId, p, c);
    if j != customerId {
      UpdateCustomerKeeps(s, customerId, p, j);
    }
  }

  /** The record a visit leaves: the same record logged, the class charged but not below 0, an absent entry left absent, and the class enrolled. */
  lemma AttendancePatchEffect(c: Customer, k: int, cost: int, record: AttendanceRecord, j: int)
    ensures var c' := ApplyCustomerPatch(c, AttendancePatch(c, k, cost, record));
      && c'.attendanceLog == c.attendanceLog + [record]
      && c'.classSessions.Some?
      && c'.classSessions.value.Keys == c.classSessions.GetOr(map[]).Keys
      && (k in c'.classSessions.value ==> Balance(c', k) == Max(0, Balance(c, k) - cost))
      && (j != k ==> Balance(c', j) == Balance(c, j))
      && c'.enrolledClasses == Enrol(c.enrolledClasses, k)
      && c'.(attendanceLog := c.attendanceLog, classSessions := c.classSessions, enrolledClasses := c.enrolledClasses) == c
  {
  }

  /**
   * `recordAttendance` returns the new record and appends exactly it to the attendance list; an
   * unknown customer leaves the customers as they were, and no other customer's lookup changes.
   */
  lemma RecordAttendanceAppends(s: Store, customerId: int, classId: int, recordId: int, timestamp: int, j: int)
    ensures var st := RecordAttendanceStep(s, customerId, classId, recordId, timestamp);
      && st.result == AttendanceRecord(recordId, customerId, classId, timestamp)
      && st.next.attendanceRecords == s.attendanceRecords + [st.result]
      && st.next.classes == s.classes
      && (FindCustomer(s.customers, customerId).None? ==> st.next.customers == s.customers)
      && (j != customerId ==> FindCustomer(st.next.customers, j) == FindCustomer(s.customers, j))
  {
    var st := RecordAttendanceStep(s, customerId, classId, recordId, timestamp);
    var logged := s.(attendanceRecords := s.attendanceRecords + [st.result]);
    if j != customerId {
      match FindCustomer(s.customers, customerId)
      case None =>
      case Some(c) =>
        UpdateCustomerKeeps(logged, customerId, AttendancePatch(c, classId, VisitCost(s.classes, classId), st.result), j);
    }
  }

  /** For a known customer, `recordAttendance` merges the visit into the record a lookup finds. */
  lemma RecordAttendanceFinds(s: Store, customerId: int, classId: int, recordId: int, timestamp: int, c: Customer)
    requires FindCustomer(s.customers, customerId) == Some(c)
    ensures var st := RecordAttendanceStep(s, customerId, classId, recordId, timestamp);
      FindCustomer(st.next.customers, customerId)
        == Some(ApplyCustomerPatch(c, AttendancePatch(c, classId, VisitCost(s.classes, classId), st.result)))
  {
    var record := AttendanceRecord(recordId, customerId, classId, timestamp);
    var logged := s.(attendanceRecords := s.attendanceRecords + [record]);
    UpdateCustomerFinds(logged, customerId, AttendancePatch(c, classId, VisitCost(s.classes, classId), record), c);
  }

  // ---------------------------------------------------------------- invariants of the ledger

  /** No customer's drop-in balance or stored per-class balance is negative. */
  predicate AllBalancesNonNegative(s: Store) {
    forall i :: 0 <= i < |s.customers| ==> BalancesNonNegative(s.customers[i])
  }

  /** Merging `p` into the records with id `id` keeps every balance non-negative when `p` writes only non-negative balances. */
  lemma UpdateKeepsBalancesNonNegative(s: Store, id: int, p: CustomerPatch)
    requires AllBalancesNonNegative(s)
    requires p.dropInSessions.Some? ==> p.dropInSessions.value >= 0
    requires p.classSessions.Some? && p.classSessions.value.Some? ==>
      forall k :: k in p.classSessions.value.value ==> p.classSessions.value.value[k] >= 0
    ensures AllBalancesNonNegative(UpdateCustomerStep(s, id, p))
  {
    var next := UpdateCustomerStep(s, id, p);
    forall i | 0 <= i < |next.customers|
      ensures BalancesNonNegative(next.customers[i])
    {
      assert BalancesNonNegative(s.customers[i]);
    }
  }

  /** The update of a positive top-up writes only non-negative balances for a customer whose balances are non-negative. */
  lemma TopUpPatchNonNegative(c: Customer, t: TopUp)
    requires BalancesNonNegative(c) && t.sessionsAdded > 0
    ensures var p := TopUpPatch(c, t);
      && (p.dropInSessions.Some? ==> p.dropInSessions.value >= 0)
      && (p.classSessions.Some? && p.classSessions.value.Some? ==>
            forall k :: k in p.classSessions.value.value ==> p.classSessions.value.value[k] >= 0)
  {
  }

  /** A new customer starts with no drop-in sessions and no class balances, so adding one keeps every balance non-negative. */
  lemma AddCustomerKeepsBalancesNonNegative(s: Store, d: CustomerDraft, id: int)
    requires AllBalancesNonNegative(s)
    ensures AllBalancesNonNegative(AddCustomerStep(s, d, id).next)
  {
    var next := AddCustomerStep(s, d, id).next;
    forall i | 0 <= i < |next.customers|
      ensures BalancesNonNegative(next.customers[i])
    {
      if i < |s.customers| {
        assert next.customers[i] == s.customers[i];
      }
    }
  }

  /** `addSessions` only adds to balances, so no balance becomes negative. */
  lemma AddSessionsKeepsBalancesNonNegative(s: Store, customerId: int, count: string, classId: Option<string>)
    requires AllBalancesNonNegative(s)
    ensures AllBalancesNonNegative(AddSessionsStep(s, customerId, count, classId).next)
  {
    AddSessionsRefusals(s, customerId, count, classId);
    match FindCustomer(s.customers, customerId)
    case None =>
    case Some(c) =>
      match TopUpRequest(s.classes, count, classId)
      case Err(_) =>
      case Ok(t) =>
        AddSessionsTopUp(s, customerId, count, classId, c, t);
        TopUpRequestAccepted(s.classes, count, classId);
        assert BalancesNonNegative(c);
        TopUpPatchNonNegative(c, t);
        UpdateKeepsBalancesNonNegative(s, customerId, TopUpPatch(c, t));
  }

  /** `recordAttendance` clamps every charge at 0 and adds no entry, so no balance becomes negative. */
  lemma RecordAttendanceKeepsBalancesNonNegative(s: Store, customerId: int, classId: int, recordId: int, timestamp: int)
    requires AllBalancesNonNegative(s)
    ensures AllBalancesNonNegative(RecordAttendanceStep(s, customerId, classId, recordId, timestamp).next)
  {
    var record := AttendanceRecord(recordId, customerId, classId, timestamp);
    var logged := s.(attendanceRecords := s.attendanceRecords + [record]);
    match FindCustomer(s.customers, customerId)
    case None =>
    case Some(c) =>
      assert BalancesNonNegative(c);
      UpdateKeepsBalancesNonNegative(logged, customerId, AttendancePatch(c, classId, VisitCost(s.classes, classId), record));
  }

  /** A top-up's update keeps every class the customer was enrolled in. */
  lemma TopUpPatchKeepsEnrolment(c: Customer, t: TopUp)
    ensures c.enrolledClasses <= ApplyCustomerPatch(c, TopUpPatch(c, t)).enrolledClasses
  {
    match t
    case ClassTopUp(k, n) => ClassTopUpEffect(c, k, n, k);
    case DropInTopUp(n) =>
  }

  /** Enrolment only grows: after `addSessions` every enrolment list a lookup finds extends the one it found before. */
  lemma AddSessionsEnrolmentGrows(s: Store, customerId: int, count: string, classId: Option<string>, j: int, c: Customer)
    requires FindCustomer(s.customers, j) == Some(c)
    ensures var next := AddSessionsStep(s, customerId, count, classId).next;
      FindCustomer(next.customers, j).Some? && c.enrolledClasses <= FindCustomer(next.customers, j).value.enrolledClasses
  {
    AddSessionsRefusals(s, customerId, count, classId);
    match FindCustomer(s.customers, customerId)
    case None =>
    case Some(c0) =>
      match TopUpRequest(s.classes, count, classId)
      case Err(_) =>
      case Ok(t) =>
        AddSessionsTopUp(s, customerId, count, classId, c0, t);
        if j == customerId {
          UpdateCustomerFinds(s, customerId, TopUpPatch(c0, t), c0);
          TopUpPatchKeepsEnrolment(c0, t);
        } else {
          UpdateCustomerKeeps(s, customerId, TopUpPatch(c0, t), j);
        }
  }

  /** Enrolment only grows: after `recordAttendance` every enrolment list a lookup finds extends the one it found before. */
  lemma RecordAttendanceEnrolmentGrows(s: Store, customerId: int, classId: int, recordId: int, timestamp: int, j: int, c: Customer)
    requires FindCustomer(s.customers, j) == Some(c)
    ensures var next := RecordAttendanceStep(s, customerId, classId, recordId, timestamp).next;
      FindCustomer(next.customers, j).Some? && c.enrolledClasses <= FindCustomer(next.customers, j).value.enrolledClasses
  {
    RecordAttendanceAppends(s, customerId, classId, recordId, timestamp, j);
    if j == customerId {
      RecordAttendanceFinds(s, customerId, classId, recordId, timestamp, c);
    }
  }
}
