/**
 * The three-step "create event" form: a flat record of text fields and
 * one checkbox, edited by a single change handler.
 */
module CreateEvent {
  import opened Wizard

  /** The form has three steps. */
  const LastStep: int := 3

  /** A form value: the text of an input, select or text area, or a checkbox state. */
  datatype FieldValue = Text(text: string) | Flag(flag: bool)

  /** The names of the fields of `formData`. */
  const FieldNames: set<string> := {
    "title", "description", "type", "date", "time", "venue", "address", "city", "capacity", "price",
    "isPublic", "rsvpDeadline", "tags", "amenities", "requirements", "contactPhone", "contactEmail",
    "seatingArrangement" }

  /** The initial `formData`: public, open seating, every other field empty. */
  function InitialValue(name: string): FieldValue {
    if name == "isPublic" then Flag(true)
    else if name == "seatingArrangement" then Text("open")
    else Text("")
  }

  function InitialFormData(): (r: map<string, FieldValue>)
    ensures r.Keys == FieldNames
    ensures r["isPublic"] == Flag(true) && r["seatingArrangement"] == Text("open")
    ensures forall name :: name in r && name != "isPublic" && name != "seatingArrangement" ==> r[name] == Text("")
  {
    map name | name in FieldNames :: InitialValue(name)
  }

  /** The kind of element that fired the change event. */
  datatype InputKind = Checkbox | OtherInput

  /** `type === 'checkbox' ? checked : value`. */
  function ChangedValue(kind: InputKind, value: string, checked: bool): (r: FieldValue)
    ensures r.Flag? <==> kind == Checkbox
    ensures r.Flag? ==> r.flag == checked
    ensures r.Text? ==> r.text == value
  {
    if kind == Checkbox then Flag(checked) else Text(value)
  }

  /** The form state. */
  class CreateEventForm {
    var currentStep: int
    var formData: map<string, FieldValue>

    ghost predicate Valid()
      reads this
    {
      1 <= currentStep <= LastStep && formData.Keys == FieldNames
    }

    constructor ()
      ensures currentStep == 1 && formData == InitialFormData()
      ensures Valid()
    {
      currentStep := 1;
      formData := InitialFormData();
    }

    /** `handleChange`: only the named field changes, to the checkbox state or the typed text. */
    method HandleChange(name: string, kind: InputKind, value: string, checked: bool)
      requires Valid() && name in FieldNames
      modifies this
      ensures formData == old(formData)[name := ChangedValue(kind, value, checked)]
      ensures currentStep == old(currentStep)
      ensures Valid()
    {
      formData := formData[name := ChangedValue(kind, value, checked)];
    }

    /** `nextStep`. */
    method NextStep()
      requires Valid()
      modifies this
      ensures currentStep == Next(old(currentStep), LastStep)
      ensures formData == old(formData)
      ensures Valid()
    {
      StepInRange(currentStep, LastStep, Forward);
      currentStep := Next(currentStep, LastStep);
    }

    /** `prevStep`. */
    method PrevStep()
      requires Valid()
      modifies this
      ensures currentStep == Prev(old(currentStep))
      ensures formData == old(formData)
      ensures Valid()
    {
      StepInRange(currentStep, LastStep, Back);
      currentStep := Prev(currentStep);
    }

    /**
     * The buttons on screen: "Previous" only after step 1, "Create Event"
     * only on step 3 and "Next" on the steps before it.
     */
    method Buttons() returns (c: Controls)
      requires Valid()
      ensures c.previous <==> currentStep > 1
      ensures c.submit <==> currentStep == LastStep
      ensures c.next <==> currentStep < LastStep
    {
      c := ControlsAt(currentStep, LastStep);
      ControlsOnReachableSteps(currentStep, LastStep);
    }

    /** `handleSubmit`, reachable only from the "Create Event" button: hands the form data on. */
    method Submit() returns (submitted: map<string, FieldValue>)
      requires Valid() && currentStep == LastStep
      ensures submitted == formData && submitted.Keys == FieldNames
    {
      submitted := formData;
    }
  }
}
