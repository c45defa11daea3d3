/**
 * The class form: its opening values, the values it loads when it edits an existing class
 * (each fee and the cost per visit falling back to a default when the stored one is zero),
 * the validation that fills the error record field by field, and the submit step that either
 * updates the class being edited or adds a new one.
 */
module ClassForm {
  import opened Values
  import opened JsString
  import opened Entities
  import opened DataContext

  // ---------------------------------------------------------------- opening values

  /** The form as it opens for a new class. */
  const NewForm: ClassDraft := ClassDraft("", "", "", 20, "", 1, 100, 20)

  /** The values loaded for editing `g`: `sessionsPerVisit || 1`, `monthlyFee || 100`, `dropInFee || 20`. */
  function EditForm(g: GymClass): (d: ClassDraft)
    ensures d.name == g.name && d.instructor == g.instructor && d.schedule == g.schedule
    ensures d.capacity == g.capacity && d.description == g.description
    ensures d.sessionsPerVisit == SessionsPerVisit(g)
    ensures d.sessionsPerVisit != 0 && d.monthlyFee != 0 && d.dropInFee != 0
    ensures g.monthlyFee != 0 ==> d.monthlyFee == g.monthlyFee
    ensures g.monthlyFee == 0 ==> d.monthlyFee == 100
    ensures g.dropInFee != 0 ==> d.dropInFee == g.dropInFee
    ensures g.dropInFee == 0 ==> d.dropInFee == 20
  {
    ClassDraft(g.name, g.instructor, g.schedule, g.capacity, g.description,
               SessionsPerVisit(g),
               if g.monthlyFee == 0 then 100 else g.monthlyFee,
               if g.dropInFee == 0 then 20 else g.dropInFee)
  }

  /** The `updates` object `updateClass(id, formData)` receives: every field of the form. */
  function FormPatch(d: ClassDraft): ClassPatch {
    ClassPatch(Some(d.name), Some(d.instructor), Some(d.schedule), Some(d.capacity), None,
               Some(d.description), Some(d.sessionsPerVisit), Some(d.monthlyFee), Some(d.dropInFee))
  }

  /**
   * Saving an edit form untouched keeps the class's cost per visit as the clock-in reads it, keeps its
   * id and enrolled count, and writes back exactly the stored class when its fees and cost are non-zero.
   */
  lemma SavingUntouchedEdit(g: GymClass)
    ensures var h := ApplyClassPatch(g, FormPatch(EditForm(g)));
      && h.id == g.id && h.enrolledCount == g.enrolledCount
      && SessionsPerVisit(h) == SessionsPerVisit(g)
      && (g.sessionsPerVisit != 0 && g.monthlyFee != 0 && g.dropInFee != 0 ==> h == g)
  {
  }

  // ---------------------------------------------------------------- field changes

  /** One `change` event: the input's name and its new value. */
  datatype FieldChange =
    | NameInput(name: string)
    | InstructorInput(instructor: string)
    | ScheduleInput(schedule: string)
    | CapacityInput(capacity: int)
    | DescriptionInput(description: string)
    | SessionsPerVisitInput(sessionsPerVisit: int)
    | MonthlyFeeInput(monthlyFee: int)
    | DropInFeeInput(dropInFee: int)

  /** `{ ...prev, [name]: value }`. */
  function Assign(d: ClassDraft, ch: FieldChange): ClassDraft {
    match ch
    case NameInput(v) => d.(name := v)
    case InstructorInput(v) => d.(instructor := v)
    case ScheduleInput(v) => d.(schedule := v)
    case CapacityInput(v) => d.(capacity := v)
    case DescriptionInput(v) => d.(description := v)
    case SessionsPerVisitInput(v) => d.(sessionsPerVisit := v)
    case MonthlyFeeInput(v) => d.(monthlyFee := v)
    case DropInFeeInput(v) => d.(dropInFee := v)
  }

  // ---------------------------------------------------------------- validation

  /** What `validate` demands: name, instructor and schedule not blank, and a positive capacity. */
  predicate Valid(d: ClassDraft) {
    && !IsBlank(d.name)
    && !IsBlank(d.instructor)
    && !IsBlank(d.schedule)
    && d.capacity > 0
  }

  /** The form fields `validate` checks, each the key of its own error. */
  datatype FormField = NameField | InstructorField | ScheduleField | CapacityField

  /**
   * `validate`: one error per failing check, under that field's key; the form is valid exactly
   * when no error was recorded.
   */
  method Validate(d: ClassDraft) returns (errors: map<FormField, string>, valid: bool)
    ensures NameField in errors <==> IsBlank(d.name)
    ensures InstructorField in errors <==> IsBlank(d.instructor)
    ensures ScheduleField in errors <==> IsBlank(d.schedule)
    ensures CapacityField in errors <==> d.capacity <= 0
    ensures NameField in errors ==> errors[NameField] == "Class name is required"
    ensures CapacityField in errors ==> errors[CapacityField] == "Capacity must be greater than 0"
    ensures valid <==> errors == map[]
    ensures valid <==> Valid(d)
  {
    errors := map[];
    if IsBlank(d.name) { errors := errors[NameField := "Class name is required"]; }
    if IsBlank(d.instructor) { errors := errors[InstructorField := "Instructor is required"]; }
    if IsBlank(d.schedule) { errors := errors[ScheduleField := "Schedule is required"]; }
    if d.capacity <= 0 { errors := errors[CapacityField := "Capacity must be greater than 0"]; }
    valid := errors == map[];
  }

  /** The cost per visit and the two fees never decide validity: any values of them may be saved. */
  lemma ValidityIgnoresFees(d: ClassDraft, sessionsPerVisit: int, monthlyFee: int, dropInFee: int)
    ensures Valid(d.(sessionsPerVisit := sessionsPerVisit, monthlyFee := monthlyFee, dropInFee := dropInFee))
        <==> Valid(d)
  {
  }

  /** A new form cannot be saved until it is named, given an instructor and a schedule; its capacity already passes. */
  lemma NewFormNeedsNaming()
    ensures !Valid(NewForm)
    ensures forall n, i, s :: Valid(NewForm.(name := n, instructor := i, schedule := s)) <==>
      !IsBlank(n) && !IsBlank(i) && !IsBlank(s)
  {
    assert IsBlank(NewForm.name);
  }

  // ---------------------------------------------------------------- the form

  /** The form's state: the class being edited (none when adding), the fields and the last errors. */
  class ClassFormState {
    const classData: Option<GymClass>
    var data: ClassDraft
    var errors: map<FormField, string>

    /** Opens the form; the effect on `classData` loads the class being edited. */
    constructor(classData: Option<GymClass>)
      ensures this.classData == classData && errors == map[]
      ensures classData.None? ==> data == NewForm
      ensures classData.Some? ==> data == EditForm(classData.value)
    {
      this.classData := classData;
      data := if classData.Some? then EditForm(classData.value) else NewForm;
      errors := map[];
    }

    /** `handleChange`: the input's field takes the new value. */
    method HandleChange(ch: FieldChange)
      modifies this
      ensures data == Assign(old(data), ch)
      ensures errors == old(errors)
    {
      data := Assign(data, ch);
    }

    /**
     * `handleSubmit`: validates and records the errors; an invalid form changes nothing else, a valid
     * one updates the class being edited with every field of the form, or adds a new class with the
     * fresh id `id`.
     */
    method HandleSubmit(repo: Repository, id: int) returns (submitted: bool)
      modifies this, repo
      ensures data == old(data)
      ensures errors == map[] <==> Valid(data)
      ensures submitted <==> Valid(data)
      ensures !submitted ==> repo.State() == old(repo.State())
      ensures submitted && classData.Some? ==>
        repo.State() == UpdateClassStep(old(repo.State()), classData.value.id, FormPatch(data))
      ensures submitted && classData.None? ==>
        repo.State() == AddClassStep(old(repo.State()), data, id).next
    {
      var newErrors, valid := Validate(data);
      errors := newErrors;
      if !valid {
        return false;
      }
      if classData.Some? {
        repo.UpdateClass(classData.value.id, FormPatch(data));
      } else {
        var _ := repo.AddClass(data, id);
      }
      submitted := true;
    }
  }
}
