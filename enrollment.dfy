/**
 * Step 2 of the wizard: the enrolment form of nine personal, biographical
 * and contact fields, its validity gate and the payload it submits.
 */
module EnrollmentStep {
  import opened Records
  import Api
  import IdentityValidationStep

  datatype Field =
    | FirstName | LastName | BirthDate | Gender | Email | Phone | Address | City | Department

  datatype Form = Form(
    firstName: string, lastName: string, birthDate: string, gender: string,
    email: string, phone: string, address: string, city: string, department: string)

  /** The record key under which each field travels. */
  function Key(field: Field): string {
    match field
    case FirstName => "firstName"
    case LastName => "lastName"
    case BirthDate => "birthDate"
    case Gender => "gender"
    case Email => "email"
    case Phone => "phone"
    case Address => "address"
    case City => "city"
    case Department => "department"
  }

  /** The nine keys are distinct. */
  lemma KeysDistinct(a: Field, b: Field)
    ensures Key(a) == Key(b) <==> a == b
  {
  }

  function Get(f: Form, field: Field): string {
    match field
    case FirstName => f.firstName
    case LastName => f.lastName
    case BirthDate => f.birthDate
    case Gender => f.gender
    case Email => f.email
    case Phone => f.phone
    case Address => f.address
    case City => f.city
    case Department => f.department
  }

  /** The form after typing into one input: that field takes the value, every other field keeps its own. */
  function With(f: Form, field: Field, value: string): (g: Form)
    ensures Get(g, field) == value
    ensures forall other :: other != field ==> Get(g, other) == Get(f, other)
  {
    match field
    case FirstName => f.(firstName := value)
    case LastName => f.(lastName := value)
    case BirthDate => f.(birthDate := value)
    case Gender => f.(gender := value)
    case Email => f.(email := value)
    case Phone => f.(phone := value)
    case Address => f.(address := value)
    case City => f.(city := value)
    case Department => f.(department := value)
  }

  /** Each field starts from the case record, or '' when the record holds no text for it. */
  function InitialForm(data: Record): (f: Form)
    ensures forall field :: Get(f, field) == TextOr(data, Key(field), "")
  {
    Form(TextOr(data, "firstName", ""), TextOr(data, "lastName", ""),
         TextOr(data, "birthDate", ""), TextOr(data, "gender", ""),
         TextOr(data, "email", ""), TextOr(data, "phone", ""),
         TextOr(data, "address", ""), TextOr(data, "city", ""),
         TextOr(data, "department", ""))
  }

  /** The fields the gate requires. */
  predicate Required(field: Field) {
    field in {FirstName, LastName, Email, Phone, Address}
  }

  /** `isValid`: first name, last name, email, phone and address are all non-empty. */
  predicate IsValid(f: Form) {
    f.firstName != "" && f.lastName != "" && f.email != "" && f.phone != "" && f.address != ""
  }

  /** The gate is exactly "every required field is filled in". */
  lemma IsValidIffRequiredFilled(f: Form)
    ensures IsValid(f) <==> forall field :: Required(field) ==> Get(f, field) != ""
  {
    if !IsValid(f) {
      var missing :=
        if f.firstName == "" then FirstName else if f.lastName == "" then LastName
        else if f.email == "" then Email else if f.phone == "" then Phone else Address;
      assert Required(missing) && Get(f, missing) == "";
    }
  }

  /** Birth date, gender, city and department never change the gate. */
  lemma OptionalFieldsIrrelevant(f: Form, field: Field, value: string)
    requires !Required(field)
    ensures IsValid(With(f, field, value)) == IsValid(f)
  {
    IsValidIffRequiredFilled(f);
    IsValidIffRequiredFilled(With(f, field, value));
  }

  /** `handleSubmit`'s payload: the nine fields under their keys. */
  function FormRecord(f: Form): (r: Record)
    ensures forall field :: Key(field) in r && r[Key(field)] == Text(Get(f, field))
  {
    map["firstName" := Text(f.firstName), "lastName" := Text(f.lastName),
        "birthDate" := Text(f.birthDate), "gender" := Text(f.gender),
        "email" := Text(f.email), "phone" := Text(f.phone),
        "address" := Text(f.address), "city" := Text(f.city),
        "department" := Text(f.department)]
  }

  /** The payload holds no key besides the nine field keys. */
  lemma FormRecordKeys(f: Form)
    ensures forall k :: k in FormRecord(f) ==> exists field :: Key(field) == k
  {
    forall k | k in FormRecord(f)
      ensures exists field :: Key(field) == k
    {
      var field :=
        if k == "firstName" then FirstName else if k == "lastName" then LastName
        else if k == "birthDate" then BirthDate else if k == "gender" then Gender
        else if k == "email" then Email else if k == "phone" then Phone
        else if k == "address" then Address else if k == "city" then City
        else Department;
      assert Key(field) == k;
    }
  }

  /** Going back to the step after submitting shows the submitted form again. */
  lemma SubmitRoundTrip(data: Record, f: Form)
    ensures InitialForm(Merge(data, FormRecord(f))) == f
  {
    var m := Merge(data, FormRecord(f));
    assert m["firstName"] == Text(f.firstName) && m["lastName"] == Text(f.lastName);
    assert m["birthDate"] == Text(f.birthDate) && m["gender"] == Text(f.gender);
    assert m["email"] == Text(f.email) && m["phone"] == Text(f.phone);
    assert m["address"] == Text(f.address) && m["city"] == Text(f.city);
    assert m["department"] == Text(f.department);
  }

  /**
   * After a confirmed identity the enrolment form opens with the registry's
   * names, birth date and gender.
   */
  lemma IdentityPrefillsEnrollment(data: Record, form: IdentityValidationStep.Form,
                                   r: Api.IdentityResponse)
    requires r.data.Some?
    ensures var f := InitialForm(Merge(data, IdentityValidationStep.EnrichedData(form, r)));
            f.firstName == r.data.value.firstName && f.lastName == r.data.value.lastName
            && f.birthDate == r.data.value.birthDate && f.gender == r.data.value.gender
  {
    IdentityValidationStep.EnrichedDataContents(form, r);
  }

  class Enrollment {
    var form: Form

    constructor (data: Record)
      ensures form == InitialForm(data)
    {
      form := InitialForm(data);
    }

    /** Continue is enabled exactly when the form is valid. */
    predicate ContinueEnabled()
      reads this
    {
      IsValid(form)
    }

    /** An input's `onChange`: only that field changes. */
    method SetField(field: Field, value: string)
      modifies this
      ensures form == With(old(form), field, value)
    {
      form := With(form, field, value);
    }

    /** `handleSubmit`: the payload passed to `onNext`. */
    method HandleSubmit() returns (payload: Record)
      ensures payload == FormRecord(form)
    {
      payload := FormRecord(form);
    }
  }
}
