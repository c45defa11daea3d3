/**
 * The customer registration form: the membership catalog, the field updates (choosing a
 * membership fills in its sessions, fee and end date), the validation that fills the error
 * record field by field, and the submit gate in front of `addCustomer`.
 *
 * Date inputs hold `Unset` when empty; the month arithmetic that computes an end date
 * (`setMonth`, then the ISO date) is the parameter `addMonths`.
 */
module CustomerForm {
  import opened Values
  import opened JsString
  import opened Entities
  import opened DataContext

  // ---------------------------------------------------------------- the catalog

  /** One membership option: its name, the sessions it grants, its length in months and its fee. */
  datatype Membership = Membership(name: string, sessions: int, months: int, fee: int)

  /** The `membershipOptions` table. */
  const Catalog: seq<Membership> := [
    Membership("Monthly Premium", 12, 1, 150),
    Membership("Monthly Basic", 8, 1, 100),
    Membership("3-Month Premium", 36, 3, 400),
    Membership("3-Month Basic", 24, 3, 270),
    Membership("6-Month Premium", 72, 6, 750),
    Membership("6-Month Basic", 48, 6, 500),
    Membership("Annual Premium", 144, 12, 1400),
    Membership("Custom", 0, 0, 0)
  ]

  /** `membershipOptions.find(opt => opt.name === name)`: the catalog entry named `name`, if any. */
  function FindMembership(name: string): (r: Option<Membership>)
    ensures r.Some? ==> r.value in Catalog && r.value.name == name
    ensures r.None? ==> forall m :: m in Catalog ==> m.name != name
  {
    match name
    case "Monthly Premium" => Some(Catalog[0])
    case "Monthly Basic" => Some(Catalog[1])
    case "3-Month Premium" => Some(Catalog[2])
    case "3-Month Basic" => Some(Catalog[3])
    case "6-Month Premium" => Some(Catalog[4])
    case "6-Month Basic" => Some(Catalog[5])
    case "Annual Premium" => Some(Catalog[6])
    case "Custom" => Some(Catalog[7])
    case _ => None
  }

  /** A membership that auto-fills the form: a catalog entry other than 'Custom'. */
  predicate AutoFills(selected: Option<Membership>) {
    selected.Some? && selected.value.name != "Custom"
  }

  /** Every membership that auto-fills grants sessions, lasts at least a month and costs something. */
  lemma AutoFillingMembershipsArePositive(name: string)
    requires AutoFills(FindMembership(name))
    ensures var m := FindMembership(name).value;
      m.sessions > 0 && m.months > 0 && m.fee > 0
  {
  }

  // ---------------------------------------------------------------- field changes

  /** One `change` event: the input's name and its new value. */
  datatype FieldChange =
    | NameInput(name: string)
    | PhoneInput(phone: string)
    | EmailInput(email: string)
    | MembershipInput(membershipType: string)
    | FeeInput(fee: int)
    | StartDateInput(startDate: Date)
    | EndDateInput(endDate: Date)
    | SessionsInput(sessions: int)

  /** `{ ...prev, [name]: value }`. */
  function Assign(d: CustomerDraft, ch: FieldChange): CustomerDraft {
    match ch
    case NameInput(v) => d.(name := v)
    case PhoneInput(v) => d.(phone := v)
    case EmailInput(v) => d.(email := v)
    case MembershipInput(v) => d.(membershipType := v)
    case FeeInput(v) => d.(subscriptionFee := v)
    case StartDateInput(v) => d.(startDate := v)
    case EndDateInput(v) => d.(endDate := v)
    case SessionsInput(v) => d.(remainingSessions := v)
  }

  /**
   * The form after `handleChange`: the field is set; a membership that auto-fills then sets
   * the end date from the current start date and its sessions and fee, and a new start date under
   * such a membership recomputes the end date. An empty date makes `toISOString` throw before the
   * second update is queued, so then only the field itself changes.
   */
  function AfterChange(d: CustomerDraft, ch: FieldChange, addMonths: (Date, int) -> Date): CustomerDraft {
    var base := Assign(d, ch);
    match ch
    case MembershipInput(v) =>
      var selected := FindMembership(v);
      if AutoFills(selected) && d.startDate.At? then
        base.(endDate := addMonths(d.startDate, selected.value.months),
                  remainingSessions := selected.value.sessions,
                  subscriptionFee := selected.value.fee)
      else base
    case StartDateInput(v) =>
      var selected := FindMembership(d.membershipType);
      if AutoFills(selected) && v.At? then base.(startDate := v, endDate := addMonths(v, selected.value.months))
      else base
    case _ => base
  }

  /** Choosing a catalog membership other than 'Custom' with a start date set applies its sessions, fee and length. */
  lemma ChoosingMembershipApplies(d: CustomerDraft, v: string, addMonths: (Date, int) -> Date)
    requires AutoFills(FindMembership(v)) && d.startDate.At?
    ensures var m := FindMembership(v).value; var r := AfterChange(d, MembershipInput(v), addMonths);
      && m in Catalog
      && r.membershipType == v
      && r.remainingSessions == m.sessions && r.remainingSessions > 0
      && r.subscriptionFee == m.fee
      && r.endDate == addMonths(d.startDate, m.months)
      && r.name == d.name && r.phone == d.phone && r.email == d.email
      && r.startDate == d.startDate && r.enrolledClasses == d.enrolledClasses
  {
    AutoFillingMembershipsArePositive(v);
  }

  /** Choosing 'Custom', or a name outside the catalog, changes only the membership name. */
  lemma ChoosingCustomKeeps(d: CustomerDraft, v: string, addMonths: (Date, int) -> Date)
    requires v == "Custom" || FindMembership(v).None?
    ensures AfterChange(d, MembershipInput(v), addMonths) == d.(membershipType := v)
  {
  }

  /**
   * A new start date moves the end date along under an auto-filling membership; a cleared start
   * date, or any other membership, changes the start date alone.
   */
  lemma ChangingStartDate(d: CustomerDraft, v: Date, addMonths: (Date, int) -> Date)
    ensures AutoFills(FindMembership(d.membershipType)) && v.At? ==>
      AfterChange(d, StartDateInput(v), addMonths) ==
        d.(startDate := v, endDate := addMonths(v, FindMembership(d.membershipType).value.months))
    ensures !AutoFills(FindMembership(d.membershipType)) || v.Unset? ==>
      AfterChange(d, StartDateInput(v), addMonths) == d.(startDate := v)
  {
  }

  /**
   * With the start date cleared, choosing any membership changes only its name: the sessions, fee
   * and end date stay as they were, since computing the end date throws first.
   */
  lemma ChoosingMembershipWithoutStartDate(d: CustomerDraft, v: string, addMonths: (Date, int) -> Date)
    requires d.startDate.Unset?
    ensures var r := AfterChange(d, MembershipInput(v), addMonths);
      && r == d.(membershipType := v)
      && r.remainingSessions == d.remainingSessions && r.subscriptionFee == d.subscriptionFee
      && r.endDate == d.endDate
  {
  }

  /** Every other input sets its own field and nothing else. */
  lemma OtherInputsAssignOnly(d: CustomerDraft, ch: FieldChange, addMonths: (Date, int) -> Date)
    requires !ch.MembershipInput? && !ch.StartDateInput?
    ensures AfterChange(d, ch, addMonths) == Assign(d, ch)
    ensures ch.NameInput? ==> AfterChange(d, ch, addMonths) == d.(name := ch.name)
    ensures ch.SessionsInput? ==> AfterChange(d, ch, addMonths) == d.(remainingSessions := ch.sessions)
  {
  }

  // ---------------------------------------------------------------- validation

  /** What `validate` demands: name, phone and email not blank, both dates given, some sessions. */
  predicate Valid(d: CustomerDraft) {
    && !IsBlank(d.name)
    && !IsBlank(d.phone)
    && !IsBlank(d.email)
    && d.startDate.At?
    && d.endDate.At?
    && d.remainingSessions > 0
  }

  /** The form fields `validate` checks, each the key of its own error. */
  datatype FormField = NameField | PhoneField | EmailField | StartDateField | EndDateField | SessionsField

  /**
   * `validate`: one error per failing check, under that field's key; the form is valid exactly
   * when no error was recorded.
   */
  method Validate(d: CustomerDraft) returns (errors: map<FormField, string>, valid: bool)
    ensures NameField in errors <==> IsBlank(d.name)
    ensures PhoneField in errors <==> IsBlank(d.phone)
    ensures EmailField in errors <==> IsBlank(d.email)
    ensures StartDateField in errors <==> d.startDate.Unset?
    ensures EndDateField in errors <==> d.endDate.Unset?
    ensures SessionsField in errors <==> d.remainingSessions <= 0
    ensures NameField in errors ==> errors[NameField] == "Name is required"
    ensures SessionsField in errors ==> errors[SessionsField] == "Sessions must be greater than 0"
    ensures valid <==> errors == map[]
    ensures valid <==> Valid(d)
  {
    errors := map[];
    if IsBlank(d.name) { errors := errors[NameField := "Name is required"]; }
    if IsBlank(d.phone) { errors := errors[PhoneField := "Phone is required"]; }
    if IsBlank(d.email) { errors := errors[EmailField := "Email is required"]; }
    assert errors.Keys <= {NameField, PhoneField, EmailField};
    if d.startDate.Unset? { errors := errors[StartDateField := "Start date is required"]; }
    if d.endDate.Unset? { errors := errors[EndDateField := "End date is required"]; }
    if d.remainingSessions <= 0 { errors := errors[SessionsField := "Sessions must be greater than 0"]; }
    valid := errors == map[];
  }

  // ---------------------------------------------------------------- the form

  /** The form as it opens on day `today`: the first catalog membership, no end date yet. */
  function InitialDraft(today: Date): CustomerDraft {
    CustomerDraft("", "", "", "Monthly Premium", 150, today, Unset, 12, [])
  }

  /** The opening sessions and fee are those of the opening membership, and the empty name keeps it from being submitted. */
  lemma InitialDraftFollowsCatalog(today: Date)
    ensures var d := InitialDraft(today);
      && FindMembership(d.membershipType).Some?
      && d.remainingSessions == FindMembership(d.membershipType).value.sessions
      && d.subscriptionFee == FindMembership(d.membershipType).value.fee
      && !Valid(d)
  {
    assert IsBlank(InitialDraft(today).name);
  }

  /** The form's state: the fields and the errors of the last validation. */
  class CustomerFormState {
    var data: CustomerDraft
    var errors: map<FormField, string>

    constructor(today: Date)
      ensures data == InitialDraft(today) && errors == map[]
    {
      data := InitialDraft(today);
      errors := map[];
    }

    /**
     * `handleChange`: the two state updates, the second only for an auto-filling membership and a
     * start date that is set (an empty one throws in `toISOString` before the second update).
     */
    method HandleChange(ch: FieldChange, addMonths: (Date, int) -> Date)
      modifies this
      ensures data == AfterChange(old(data), ch, addMonths)
      ensures errors == old(errors)
    {
      var prev := data;
      data := Assign(data, ch);
      match ch {
        case MembershipInput(v) =>
          var selected := FindMembership(v);
          if AutoFills(selected) && prev.startDate.At? {
            data := data.(endDate := addMonths(prev.startDate, selected.value.months),
                          remainingSessions := selected.value.sessions,
                          subscriptionFee := selected.value.fee);
          }
        case StartDateInput(v) =>
          var selected := FindMembership(prev.membershipType);
          if AutoFills(selected) && v.At? {
            data := data.(startDate := v, endDate := addMonths(v, selected.value.months));
          }
        case _ =>
      }
    }

    /**
     * `handleSubmit`: validates, records the errors, and only for a valid form calls
     * `addCustomer`, which gets the fresh id `id`.
     */
    method HandleSubmit(repo: Repository, id: int) returns (added: Option<Customer>)
      modifies this, repo
      ensures data == old(data)
      ensures errors == map[] <==> Valid(data)
      ensures added.Some? <==> Valid(data)
      ensures !Valid(data) ==> repo.State() == old(repo.State())
      ensures Valid(data) ==>
        repo.State() == AddCustomerStep(old(repo.State()), data, id).next
        && added.value == AddCustomerStep(old(repo.State()), data, id).result
    {
      var newErrors, valid := Validate(data);
      errors := newErrors;
      if !valid {
        return None;
      }
      var c := repo.AddCustomer(data, id);
      added := Some(c);
    }
  }
}
