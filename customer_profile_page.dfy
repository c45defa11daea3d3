/**
 * The customer profile page: the customer the route id names, the enrolled-class table, the
 * WhatsApp number the share handler derives from the stored phone, the card image's file name,
 * and the two input guards in front of clock-in and add-sessions.
 */
module CustomerProfilePage {
  import opened Values
  import opened JsString
  import opened Collections
  import opened Entities
  import opened DataContext
  import opened ClockIn

  // ---------------------------------------------------------------- the route

  /** The customer for route parameter `routeId`: `parseInt(id, 10)`, then `getCustomer`. */
  function ProfileCustomer(customers: seq<Customer>, routeId: string): (r: Option<Customer>)
    ensures ParseInt(routeId).None? ==> r.None?
    ensures r.Some? ==> r.value in customers && ParseInt(routeId) == Some(r.value.id)
    ensures ParseInt(routeId).Some? ==> r == FindCustomer(customers, ParseInt(routeId).value)
  {
    match ParseInt(routeId)
    case None => None
    case Some(id) => FindCustomer(customers, id)
  }

  /** A customer's own URL segment, with any non-digit text after it, opens that customer's profile. */
  lemma ProfileOfOwnId(customers: seq<Customer>, id: int, rest: string)
    requires rest == [] || !IsDigit(rest[0])
    ensures ProfileCustomer(customers, IntToString(id) + rest) == FindCustomer(customers, id)
  {
    ParseIntOfIntToString(id, rest);
  }

  /** A route id without any digit renders the not-found view. */
  lemma NonNumericRouteNotFound(customers: seq<Customer>, routeId: string)
    requires forall i :: 0 <= i < |routeId| ==> !IsDigit(routeId[i])
    ensures ProfileCustomer(customers, routeId) == None
  {
    ParseIntWithoutDigits(routeId);
  }

  // ---------------------------------------------------------------- enrolled classes

  /** One row of the enrolled-class table. */
  datatype ClassDetail = ClassDetail(id: int, name: string, schedule: string, sessions: int, sessionsPerVisit: int)

  /** An enrolled id gets a row when a class with that id exists. */
  function HasClass(classes: seq<GymClass>): int -> bool {
    (k: int) => FindClass(classes, k).Some?
  }

  /** The ids of the rows, in order. */
  function DetailIds(ds: seq<ClassDetail>): (r: seq<int>)
    ensures |r| == |ds| && forall i :: 0 <= i < |ds| ==> r[i] == ds[i].id
  {
    if ds == [] then [] else [ds[0].id] + DetailIds(ds[1..])
  }

  /** The row for class `g`. */
  function Row(c: Customer, g: GymClass): ClassDetail {
    ClassDetail(g.id, g.name, g.schedule, Balance(c, g.id), SessionsPerVisit(g))
  }

  /**
   * `enrolledClassDetails` over the ids `enrolled`: a row per id whose class exists, in the order
   * of the ids, with the customer's balance for it (`|| 0`) and its cost per visit (`|| 1`).
   */
  function ClassDetails(c: Customer, enrolled: seq<int>, classes: seq<GymClass>): (r: seq<ClassDetail>)
    ensures DetailIds(r) == Filter(enrolled, HasClass(classes))
    ensures forall d :: d in r ==>
      && FindClass(classes, d.id).Some?
      && d.name == FindClass(classes, d.id).value.name
      && d.schedule == FindClass(classes, d.id).value.schedule
      && d.sessions == Balance(c, d.id)
      && d.sessionsPerVisit == SessionsPerVisit(FindClass(classes, d.id).value)
  {
    if enrolled == [] then []
    else
      var tail := ClassDetails(c, enrolled[1..], classes);
      match FindClass(classes, enrolled[0])
      case None => tail
      case Some(g) => [Row(c, g)] + tail
  }

  /** The table of the profile's customer. */
  function EnrolledClassDetails(c: Customer, classes: seq<GymClass>): seq<ClassDetail> {
    ClassDetails(c, c.enrolledClasses, classes)
  }

  /** The table lists at most the enrolled classes, and all of them when every enrolled class exists. */
  lemma EnrolledClassDetailsComplete(c: Customer, classes: seq<GymClass>)
    ensures |EnrolledClassDetails(c, classes)| <= |c.enrolledClasses|
    ensures (forall k :: k in c.enrolledClasses ==> FindClass(classes, k).Some?) ==>
      DetailIds(EnrolledClassDetails(c, classes)) == c.enrolledClasses
  {
    var r := EnrolledClassDetails(c, classes);
    assert |DetailIds(r)| == |r|;
    if forall k :: k in c.enrolledClasses ==> FindClass(classes, k).Some? {
      FilterKeepsAll(c.enrolledClasses, HasClass(classes));
    }
  }

  // ---------------------------------------------------------------- sharing the card

  /** Where the share fallback sends the customer: WhatsApp Web without a number, or a chat with one. */
  datatype WhatsAppTarget = WebOnly | Chat(number: string)

  /**
   * The fallback's phone rewrite: keep the digits; none left opens WhatsApp Web; otherwise one
   * leading "00" is dropped, and then a leading "0" is replaced by the country code "20".
   */
  function WhatsAppNumber(phone: string): WhatsAppTarget {
    var cleaned := KeepDigits(phone);
    if cleaned == [] then WebOnly
    else
      var international := if StartsWith(cleaned, "00") then cleaned[2..] else cleaned;
      if StartsWith(international, "0") then Chat("20" + international[1..]) else Chat(international)
  }

  /** A chat number is all digits and never starts with '0'; the number-less branch is taken exactly when the phone has no digit. */
  lemma WhatsAppNumberShape(phone: string)
    ensures WhatsAppNumber(phone) == WebOnly <==> KeepDigits(phone) == []
    ensures WhatsAppNumber(phone).Chat? ==>
      var n := WhatsAppNumber(phone).number;
      AllDigits(n) && (n == [] || n[0] != '0')
  {
  }

  /** Digits that do not start with '0' are used as they are. */
  lemma WhatsAppNumberPassThrough(phone: string)
    requires KeepDigits(phone) != [] && KeepDigits(phone)[0] != '0'
    ensures WhatsAppNumber(phone) == Chat(KeepDigits(phone))
  {
  }

  /** For a national number `rest` (digits, not starting with '0'), a trunk '0' becomes the country code "20". */
  lemma WhatsAppNumberTrunkPrefix(rest: string)
    requires AllDigits(rest) && (rest == [] || rest[0] != '0')
    ensures WhatsAppNumber("0" + rest) == Chat("20" + rest)
  {
    KeepDigitsOfDigits("0" + rest);
    assert ("0" + rest)[1..] == rest;
  }

  /** For a national number `rest` (digits, not starting with '0'), an international "00" is dropped. */
  lemma WhatsAppNumberInternationalPrefix(rest: string)
    requires AllDigits(rest) && rest != [] && rest[0] != '0'
    ensures WhatsAppNumber("00" + rest) == Chat(rest)
  {
    KeepDigitsOfDigits("00" + rest);
    assert ("00" + rest)[2..] == rest;
  }

  /** Only one "00" is dropped: "000" then has its remaining '0' replaced by "20". */
  lemma WhatsAppNumberTripleZero(rest: string)
    requires AllDigits(rest) && (rest == [] || rest[0] != '0')
    ensures WhatsAppNumber("000" + rest) == Chat("20" + rest)
  {
    KeepDigitsOfDigits("000" + rest);
    assert ("000" + rest)[2..] == "0" + rest;
    assert ("0" + rest)[1..] == rest;
  }

  /** A phone of just "00" loses both digits and opens a chat with an empty number. */
  lemma WhatsAppNumberOfDoubleZero()
    ensures WhatsAppNumber("00") == Chat("")
  {
    KeepDigitsOfDigits("00");
  }

  /** The downloaded or shared card's file name: whitespace runs of the name become '_'. */
  function CardFileName(name: string): string {
    CollapseWhitespace(name, '_') + "_virtual_card.png"
  }

  /**
   * The file name ends with "_virtual_card.png" and its stem has no whitespace; the stem is the
   * name itself when the name has no whitespace, and without its underscores it is the name
   * without its whitespace when the name had no underscore.
   */
  lemma CardFileNameShape(name: string)
    ensures var f := CardFileName(name); var stem := f[..|f| - 17];
      && f[|f| - 17..] == "_virtual_card.png"
      && (forall i :: 0 <= i < |stem| ==> !IsWhitespace(stem[i]))
      && ((forall i :: 0 <= i < |name| ==> !IsWhitespace(name[i])) ==> stem == name)
      && ((forall i :: 0 <= i < |name| ==> name[i] != '_') ==> Without(stem, '_') == WithoutWhitespace(name))
  {
    var f := CardFileName(name);
    assert f[..|f| - 17] == CollapseWhitespace(name, '_');
    CollapseWhitespaceLeavesNone(name, '_');
    if forall i :: 0 <= i < |name| ==> !IsWhitespace(name[i]) {
      CollapseWhitespaceOfPlain(name, '_');
    }
    if forall i :: 0 <= i < |name| ==> name[i] != '_' {
      CollapseWhitespaceKeepsText(name, '_');
    }
  }

  // ---------------------------------------------------------------- the two handlers

  /**
   * `handleClockIn`: with no class selected nothing is called and nothing changes; otherwise
   * the selected option's text is parsed and handed to `clockIn` for the profile's customer.
   */
  method HandleClockIn(repo: Repository, customerId: int, selectedClassId: string, recordId: int, timestamp: int)
      returns (outcome: Option<Result<CheckIn, LedgerError>>)
    modifies repo
    ensures selectedClassId == "" ==> outcome.None? && repo.State() == old(repo.State())
    ensures selectedClassId != "" ==> (
      && outcome.Some?
      && repo.State() == ClockInStep(old(repo.State()), customerId, ParseInt(selectedClassId), recordId, timestamp).next
      && outcome.value == ClockInStep(old(repo.State()), customerId, ParseInt(selectedClassId), recordId, timestamp).result)
  {
    if selectedClassId == "" {
      return None;
    }
    var r := ClockIn.ClockIn(repo, customerId, ParseInt(selectedClassId), recordId, timestamp);
    outcome := Some(r);
  }

  /**
   * `handleAddSessions`: with an empty count nothing is called and nothing changes; otherwise
   * `addSessions` gets the count's text and the selected class, an empty selection meaning none.
   */
  method HandleAddSessions(repo: Repository, customerId: int, newSessionCount: string, newSessionClassId: string)
      returns (outcome: Option<Result<TopUp, LedgerError>>)
    modifies repo
    ensures newSessionCount == "" ==> outcome.None? && repo.State() == old(repo.State())
    ensures newSessionCount != "" ==>
      var classId := if newSessionClassId == "" then None else Some(newSessionClassId);
      && outcome.Some?
      && repo.State() == AddSessionsStep(old(repo.State()), customerId, newSessionCount, classId).next
      && outcome.value == AddSessionsStep(old(repo.State()), customerId, newSessionCount, classId).result
  {
    if newSessionCount == "" {
      return None;
    }
    var classId := if newSessionClassId == "" then None else Some(newSessionClassId);
    var r := repo.AddSessions(customerId, newSessionCount, classId);
    outcome := Some(r);
  }
}
