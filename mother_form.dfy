/** The intake form for a new mother: the form state, the field-by-field
    change handler, the live risk preview, the submit gate and the submit
    handler that adds the record to the store. The number an input holds is
    passed in already converted (what `Number(value)` gives). */
module MotherForm {
  import opened Common
  import opened Risk

  /** The input ids of the form, one per field of the intake details. */
  datatype FieldId =
    | Name | PhoneNumber | Age | Lmp | PregnancyNumber | Weight | MedicalConditions
    | PhoneType | PreviousComplications | AlternateContact | FamilyMemberDetails
    | Height | BloodGroup | SpecialNotes

  /** What a field holds: text, a number, or the optional height. */
  datatype FieldValue = Text(text: string) | Num(n: int) | OptNum(o: Option<int>)

  /** The inputs whose value is converted to a number before it is stored. */
  predicate IsNumeric(id: FieldId) {
    id == Age || id == PregnancyNumber || id == Weight || id == Height
  }

  function Get(d: Details, id: FieldId): FieldValue {
    match id
    case Name => Text(d.name)
    case PhoneNumber => Text(d.phoneNumber)
    case Age => Num(d.age)
    case Lmp => Text(d.lmp)
    case PregnancyNumber => Num(d.pregnancyNumber)
    case Weight => Num(d.weight)
    case MedicalConditions => Text(d.medicalConditions)
    case PhoneType => Text(d.phoneType)
    case PreviousComplications => Text(d.previousComplications)
    case AlternateContact => Text(d.alternateContact)
    case FamilyMemberDetails => Text(d.familyMemberDetails)
    case Height => OptNum(d.height)
    case BloodGroup => Text(d.bloodGroup)
    case SpecialNotes => Text(d.specialNotes)
  }

  /** Two forms that agree on every field are the same form. */
  lemma FieldsDetermine(d: Details, e: Details)
    requires forall id: FieldId :: Get(d, id) == Get(e, id)
    ensures d == e
  {
    assert Get(d, Name) == Get(e, Name) && Get(d, PhoneNumber) == Get(e, PhoneNumber);
    assert Get(d, Age) == Get(e, Age) && Get(d, Lmp) == Get(e, Lmp);
    assert Get(d, PregnancyNumber) == Get(e, PregnancyNumber) && Get(d, Weight) == Get(e, Weight);
    assert Get(d, MedicalConditions) == Get(e, MedicalConditions) && Get(d, PhoneType) == Get(e, PhoneType);
    assert Get(d, PreviousComplications) == Get(e, PreviousComplications);
    assert Get(d, AlternateContact) == Get(e, AlternateContact);
    assert Get(d, FamilyMemberDetails) == Get(e, FamilyMemberDetails) && Get(d, Height) == Get(e, Height);
    assert Get(d, BloodGroup) == Get(e, BloodGroup) && Get(d, SpecialNotes) == Get(e, SpecialNotes);
  }

  /** The state of a fresh form. */
  function InitialForm(): (r: Details)
    ensures r.age == 0 && r.weight == 0 && r.pregnancyNumber == 1
    ensures r.phoneType == "Smartphone" && r.height == None
    ensures r.name == "" && r.phoneNumber == "" && r.lmp == "" && r.medicalConditions == ""
    ensures SubmitDisabled(r) && CurrentRisk(r).None?
  {
    Details("", "", 0, "", 1, 0, "", "Smartphone", "", "", "", None, "", "")
  }

  /** `handleChange`: the field named by the input id takes the new value,
      converted to a number for the four numeric inputs; no other field
      changes. `number` is the converted value. */
  function Change(d: Details, id: FieldId, value: string, number: int): (r: Details)
    ensures Get(r, id) == (if id == Height then OptNum(Some(number))
                           else if IsNumeric(id) then Num(number) else Text(value))
    ensures forall other: FieldId :: other != id ==> Get(r, other) == Get(d, other)
  {
    match id
    case Name => d.(name := value)
    case PhoneNumber => d.(phoneNumber := value)
    case Age => d.(age := number)
    case Lmp => d.(lmp := value)
    case PregnancyNumber => d.(pregnancyNumber := number)
    case Weight => d.(weight := number)
    case MedicalConditions => d.(medicalConditions := value)
    case PhoneType => d.(phoneType := value)
    case PreviousComplications => d.(previousComplications := value)
    case AlternateContact => d.(alternateContact := value)
    case FamilyMemberDetails => d.(familyMemberDetails := value)
    case Height => d.(height := Some(number))
    case BloodGroup => d.(bloodGroup := value)
    case SpecialNotes => d.(specialNotes := value)
  }

  /** Writing a field with the value it already holds changes nothing. */
  lemma ChangeSameValue(d: Details, id: FieldId, value: string, number: int)
    requires Get(d, id) == (if id == Height then OptNum(Some(number))
                            else if IsNumeric(id) then Num(number) else Text(value))
    ensures Change(d, id, value, number) == d
  {
    FieldsDetermine(Change(d, id, value, number), d);
  }

  /** The risk preview: present only once age and weight are positive, and
      then the classifier's label with no missed calls. */
  function CurrentRisk(d: Details): (r: Option<RiskLabel>)
    ensures r.Some? <==> d.age > 0 && d.weight > 0
    ensures r.Some? ==> r.value == DetermineRiskLabel(d, 0)
  {
    if d.age > 0 && d.weight > 0 then Some(DetermineRiskLabel(d, 0)) else None
  }

  /** The five inputs the submit button waits for. */
  predicate Required(id: FieldId) {
    id == Name || id == PhoneNumber || id == Age || id == Lmp || id == Weight
  }

  /** A field holding nothing, as `!value` sees it: empty text or zero. */
  predicate Blank(v: FieldValue) {
    v == Text("") || v == Num(0)
  }

  /** The submit button is disabled while name, phone number, age, last
      period date or weight is empty or zero: exactly when some required
      input is blank. */
  predicate SubmitDisabled(d: Details): (r: bool)
    ensures r <==> exists id: FieldId :: Required(id) && Blank(Get(d, id))
  {
    assert Get(d, Name) == Text(d.name) && Get(d, PhoneNumber) == Text(d.phoneNumber);
    assert Get(d, Age) == Num(d.age) && Get(d, Lmp) == Text(d.lmp) && Get(d, Weight) == Num(d.weight);
    d.name == "" || d.phoneNumber == "" || d.age == 0 || d.lmp == "" || d.weight == 0
  }

  /** Only the required inputs open or close the gate: changing any other
      field leaves the button as it was. */
  lemma OnlyRequiredFieldsGate(d: Details, id: FieldId, value: string, number: int)
    requires !Required(id)
    ensures SubmitDisabled(Change(d, id, value, number)) == SubmitDisabled(d)
  {
    var e := Change(d, id, value, number);
    assert Get(e, Name) == Get(d, Name) && Get(e, PhoneNumber) == Get(d, PhoneNumber);
    assert Get(e, Age) == Get(d, Age) && Get(e, Lmp) == Get(d, Lmp) && Get(e, Weight) == Get(d, Weight);
  }

  /** The inputs rendered with the `required` attribute: the seven
      priority-1 inputs and the phone type select. */
  predicate MarkedRequired(id: FieldId) {
    id == Name || id == PhoneNumber || id == Age || id == Lmp || id == PregnancyNumber
    || id == Weight || id == MedicalConditions || id == PhoneType
  }

  /** The browser's constraint check before the form's submit event: every
      input marked required shows a value. An input shows
      `String(value || '')`, so zero and empty text both show nothing. */
  predicate ConstraintsMet(d: Details): (r: bool)
    ensures r <==> forall id: FieldId :: MarkedRequired(id) ==> !Blank(Get(d, id))
  {
    assert Get(d, Name) == Text(d.name) && Get(d, PhoneNumber) == Text(d.phoneNumber);
    assert Get(d, Age) == Num(d.age) && Get(d, Lmp) == Text(d.lmp) && Get(d, Weight) == Num(d.weight);
    assert Get(d, PregnancyNumber) == Num(d.pregnancyNumber);
    assert Get(d, MedicalConditions) == Text(d.medicalConditions) && Get(d, PhoneType) == Text(d.phoneType);
    assert forall id: FieldId :: !MarkedRequired(id) ==>
      id in {PreviousComplications, AlternateContact, FamilyMemberDetails, Height, BloodGroup, SpecialNotes};
    d.name != "" && d.phoneNumber != "" && d.age != 0 && d.lmp != "" && d.pregnancyNumber != 0
    && d.weight != 0 && d.medicalConditions != "" && d.phoneType != ""
  }

  /** The button's five inputs are all marked required, so a form the
      browser lets through always has the button enabled; the converse
      fails, as a blank medical conditions field shows. */
  lemma ConstraintsOpenGate(d: Details)
    requires ConstraintsMet(d)
    ensures !SubmitDisabled(d)
  {
    assert MarkedRequired(Name) && MarkedRequired(PhoneNumber) && MarkedRequired(Age);
    assert MarkedRequired(Lmp) && MarkedRequired(Weight);
  }

  /** With the button enabled, a blank medical conditions field (or a
      pregnancy number of 0) still stops the submit. */
  lemma GateOpenButBlocked()
    ensures var d := InitialForm().(name := "A", phoneNumber := "9", age := 20, lmp := "x", weight := 50);
      !SubmitDisabled(d) && !ConstraintsMet(d)
    ensures var e := InitialForm().(name := "A", phoneNumber := "9", age := 20, lmp := "x", weight := 50,
                                    medicalConditions := "none", pregnancyNumber := 0);
      !SubmitDisabled(e) && !ConstraintsMet(e)
  {
  }

  /** The gate and the preview look at different things: a negative age is
      accepted by the gate while the preview stays empty, and a form with a
      preview can still be blocked for want of a name. */
  lemma GateAndPreviewDiffer()
    ensures var d := InitialForm().(name := "A", phoneNumber := "9", age := -1, lmp := "x", weight := 50);
      !SubmitDisabled(d) && CurrentRisk(d).None?
    ensures var e := InitialForm().(age := 20, weight := 50);
      SubmitDisabled(e) && CurrentRisk(e).Some?
  {
  }

  /** Whenever the preview is shown and the gate is open, the record that
      submit adds carries exactly the previewed label. */
  lemma SubmittedLabelIsPreview(d: Details, id: string, edd: string, today: string)
    requires CurrentRisk(d).Some?
    ensures NewMother(d, id, edd, today).riskLabel == CurrentRisk(d).value
  {
  }

  class MotherFormPage {
    var formData: Details
    const store: MotherStore

    constructor (store: MotherStore)
      ensures formData == InitialForm() && this.store == store
    {
      formData := InitialForm();
      this.store := store;
    }

    method HandleChange(id: FieldId, value: string, number: int)
      modifies this
      ensures formData == Change(old(formData), id, value, number)
    {
      formData := Change(formData, id, value, number);
    }

    /** Submit, reachable only while the button is enabled and the
        browser's required-field check passes: the form's details are
        added to the store as a new record. */
    method HandleSubmit(id: string, edd: string, today: string)
      requires !SubmitDisabled(formData) && ConstraintsMet(formData)
      modifies store
      ensures store.mothers == old(store.mothers) + [NewMother(formData, id, edd, today)]
    {
      store.AddMother(formData, id, edd, today);
    }
  }
}
