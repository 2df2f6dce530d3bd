/** The add-patient and add-doctor dialogs
    (`src/components/AddPatientDialog.tsx`, `src/components/AddDoctorDialog.tsx`):
    how a submitted form becomes the record handed to `addPatient` or
    `addDoctor`, and the form the dialog is left with afterwards. The
    current date and the BMI computed from the height and weight texts are
    parameters. */
module Dialogs {
  import opened Seqs
  import opened JsStrings
  import opened Records

  // ---------------------------------------------------------------------
  // Comma-separated list fields

  /** A string is truthy when it is not empty. */
  predicate Truthy(s: string) {
    s != []
  }

  /** An entry of a parsed list: not empty, without a comma, and with no
      whitespace at either end. */
  predicate CleanEntry(x: string) {
    x != [] && ',' !in x && !IsWhitespace(x[0]) && !IsWhitespace(x[|x| - 1])
  }

  predicate AllClean(xs: seq<string>) {
    forall i :: 0 <= i < |xs| ==> CleanEntry(xs[i])
  }

  /** `text.split(',').map(x => x.trim()).filter(x => x)`. */
  function ParseList(text: string): (r: seq<string>)
    ensures AllClean(r)
  {
    var trimmed := Map(Split(text, ','), Trim);
    TrimmedPieces(text);
    Filter(trimmed, Truthy)
  }

  /** The trimmed pieces hold no comma. */
  lemma TrimmedPieces(text: string)
    ensures var t := Map(Split(text, ','), Trim);
            forall i :: 0 <= i < |t| ==> ',' !in t[i]
  {
    var pieces := Split(text, ',');
    forall i | 0 <= i < |pieces| ensures ',' !in Trim(pieces[i]) {
      TrimKeepsOut(pieces[i], ',');
    }
  }

  /** Trimming adds no character. */
  lemma TrimKeepsOut(s: string, c: char)
    requires c !in s
    ensures c !in Trim(s)
  {
    TrimIsInfix(s);
    var r, k := Trim(s), |s| - |TrimStart(s)|;
    forall j | 0 <= j < |r| ensures r[j] != c {
      assert r[j] == s[k + j];
    }
  }

  /** Text already free of surrounding whitespace trims to itself. */
  lemma TrimOfTrimmed(x: string)
    requires x == [] || (!IsWhitespace(x[0]) && !IsWhitespace(x[|x| - 1]))
    ensures Trim(x) == x
  {
  }

  /** The entries of two texts joined by a comma are the entries of the
      first followed by those of the second: parsing keeps the order. */
  lemma ParseListAppend(a: string, b: string)
    ensures ParseList(a + [','] + b) == ParseList(a) + ParseList(b)
  {
    SplitAppend(a, ',', b);
    MapAppend(Split(a, ','), Split(b, ','), Trim);
    FilterAppend(Map(Split(a, ','), Trim), Map(Split(b, ','), Trim), Truthy);
  }

  /** Clean entries written out with commas parse back to themselves. */
  lemma ParseListJoin(items: seq<string>)
    requires AllClean(items)
    ensures ParseList(Join(items, ',')) == items
  {
    if items == [] {
      assert Split([], ',') == [[]];
      assert Map([[]], Trim) == [[]];
    } else {
      SplitJoin(items, ',');
      forall i | 0 <= i < |items| ensures Trim(items[i]) == items[i] {
        TrimOfTrimmed(items[i]);
      }
      assert Map(items, Trim) == items;
      FilterKeepsAll(items, Truthy);
    }
  }

  /** Every character is a comma or whitespace. */
  ghost predicate OnlySeparators(text: string) {
    forall i :: 0 <= i < |text| ==> text[i] == ',' || IsWhitespace(text[i])
  }

  /** A field gives no entry exactly when it holds nothing but commas and
      whitespace; the empty field is one. */
  lemma {:induction false} ParseListEmptyIff(text: string)
    ensures ParseList(text) == [] <==> OnlySeparators(text)
    decreases |text|
  {
    if k :| 0 <= k < |text| && text[k] == ',' {
      var a, b := text[..k], text[k + 1..];
      assert text == a + [','] + b;
      ParseListAppend(a, b);
      ParseListEmptyIff(a);
      ParseListEmptyIff(b);
      OnlySeparatorsAppend(a, b);
    } else {
      ParseListOnePiece(text);
    }
  }

  /** Text without a comma is one piece, kept when it is not blank. */
  lemma ParseListOnePiece(text: string)
    requires ',' !in text
    ensures ParseList(text) == [] <==> OnlySeparators(text)
  {
    SplitPlain(text, ',');
    var t := Trim(text);
    assert Map([text], Trim) == [t];
    assert [t][..0] == [];
    assert ParseList(text) == if t == [] then [] else [t];
    TrimEmptyIffBlank(text);
    assert OnlySeparators(text) <==> IsBlank(text);
  }

  lemma OnlySeparatorsAppend(a: string, b: string)
    ensures OnlySeparators(a + [','] + b) <==> OnlySeparators(a) && OnlySeparators(b)
  {
    var t := a + [','] + b;
    assert forall i :: 0 <= i < |a| ==> t[i] == a[i];
    assert forall i :: 0 <= i < |b| ==> t[|a| + 1 + i] == b[i];
  }

  // ---------------------------------------------------------------------
  // The add-patient dialog

  /** The dialog's form state; status and risk level come from selects
      whose options are exactly the record's vocabularies. */
  datatype PatientForm = PatientForm(
    name: string,
    age: string,
    phone: string,
    email: string,
    address: string,
    condition: string,
    status: PatientStatus,
    riskLevel: RiskLevel,
    bloodType: string,
    height: string,
    weight: string,
    insurance: string,
    emergencyContactName: string,
    emergencyContactPhone: string,
    emergencyContactRelationship: string,
    allergies: string,
    medications: string,
    notes: string)

  /** The form the dialog opens with. */
  const InitialPatientForm: PatientForm :=
    PatientForm("", "", "", "", "", "", PatientStatus.Active, RiskLevel.Low, "", "", "", "", "", "", "", "", "", "")

  /** The form `handleSubmit` leaves behind. */
  const ResetPatientForm: PatientForm :=
    PatientForm("", "", "", "", "", "", PatientStatus.Active, RiskLevel.Low, "", "", "", "", "", "", "", "", "", "")

  /** `handleSubmit`'s patient: the texts copied, the age read by
      `parseInt`, the lists parsed, and the fixed physician, lab-result and
      next-appointment texts. */
  function NewPatient(f: PatientForm, today: string, bmi: real): (p: PatientInfo)
    ensures p.primaryCarePhysician == "Dr. Sarah Smith"
    ensures p.lastLabResults == "Pending" && p.nextAppointment == "To be scheduled"
    ensures AllClean(p.allergies) && AllClean(p.medications)
    ensures p.emergencyContact.name == f.emergencyContactName
    ensures p.emergencyContact.phone == f.emergencyContactPhone
    ensures p.emergencyContact.relationship == f.emergencyContactRelationship
  {
    PatientInfo(
      name := f.name,
      age := ParseInt(f.age),
      phone := f.phone,
      email := f.email,
      lastVisit := today,
      condition := f.condition,
      status := f.status,
      riskLevel := f.riskLevel,
      address := f.address,
      emergencyContact := EmergencyContact(f.emergencyContactName, f.emergencyContactPhone, f.emergencyContactRelationship),
      insurance := f.insurance,
      primaryCarePhysician := "Dr. Sarah Smith",
      allergies := ParseList(f.allergies),
      medications := ParseList(f.medications),
      bloodType := f.bloodType,
      height := f.height,
      weight := f.weight,
      bmi := bmi,
      lastLabResults := "Pending",
      nextAppointment := "To be scheduled",
      notes := f.notes)
  }

  /** A patient record the dialog could have produced: a non-negative
      whole age, clean lists and the fixed texts. */
  predicate Submittable(p: PatientInfo) {
    p.age.Int? && p.age.value >= 0 && AllClean(p.allergies) && AllClean(p.medications) &&
    p.primaryCarePhysician == "Dr. Sarah Smith" && p.lastLabResults == "Pending" &&
    p.nextAppointment == "To be scheduled"
  }

  /** The form that describes a record: the age in decimal, the lists
      written out with commas. */
  function PatientFormOf(p: PatientInfo): (f: PatientForm)
    requires p.age.Int? && p.age.value >= 0
    ensures ParseInt(f.age) == p.age
  {
    ParseIntOfNatToString(p.age.value);
    PatientForm(p.name, NatToString(p.age.value), p.phone, p.email, p.address, p.condition, p.status,
      p.riskLevel, p.bloodType, p.height, p.weight, p.insurance, p.emergencyContact.name,
      p.emergencyContact.phone, p.emergencyContact.relationship, Join(p.allergies, ','),
      Join(p.medications, ','), p.notes)
  }

  /** Every record the dialog can produce is produced by filling its form
      in: submitting the form that describes it gives it back. */
  lemma PatientFormRoundTrip(p: PatientInfo)
    requires Submittable(p)
    ensures NewPatient(PatientFormOf(p), p.lastVisit, p.bmi) == p
  {
    ParseListJoin(p.allergies);
    ParseListJoin(p.medications);
  }

  /** Submitting puts the form back as it was when the dialog opened, and
      submitting that untouched form gives a patient whose age is `NaN`,
      with no allergy, no medication and every copied text empty. */
  lemma UntouchedPatientForm(today: string, bmi: real)
    ensures ResetPatientForm == InitialPatientForm
    ensures var p := NewPatient(InitialPatientForm, today, bmi);
            p.age == NaN && p.allergies == [] && p.medications == [] && p.name == [] &&
            p.status == PatientStatus.Active && p.riskLevel == RiskLevel.Low
  {
    ParseIntNoDigits([]);
    ParseListEmptyIff([]);
    var p := NewPatient(InitialPatientForm, today, bmi);
    assert p.age == ParseInt([]);
    assert p.allergies == ParseList([]) && p.medications == ParseList([]);
  }

  // ---------------------------------------------------------------------
  // The add-doctor dialog

  /** The dialog's form state; the status comes from a select over the
      record's vocabulary. */
  datatype DoctorForm = DoctorForm(
    name: string,
    specialty: string,
    experience: string,
    phone: string,
    email: string,
    location: string,
    licenseNumber: string,
    education: string,
    certifications: string,
    languages: string,
    specialties: string,
    hospitalAffiliations: string,
    researchInterests: string,
    awards: string,
    status: DoctorStatus)

  const InitialDoctorForm: DoctorForm :=
    DoctorForm("", "", "", "", "", "", "", "", "", "", "", "", "", "", DoctorStatus.Available)

  const ResetDoctorForm: DoctorForm :=
    DoctorForm("", "", "", "", "", "", "", "", "", "", "", "", "", "", DoctorStatus.Available)

  /** Nine to five on weekdays, closed at the weekend. */
  const StandardHours: Availability :=
    Availability(["9:00 AM", "5:00 PM"], ["9:00 AM", "5:00 PM"], ["9:00 AM", "5:00 PM"],
      ["9:00 AM", "5:00 PM"], ["9:00 AM", "5:00 PM"], ["Closed"], ["Closed"])

  predicate DoctorListsClean(d: DoctorInfo) {
    AllClean(d.education) && AllClean(d.certifications) && AllClean(d.languages) &&
    AllClean(d.specialties) && AllClean(d.hospitalAffiliations) && AllClean(d.researchInterests) &&
    AllClean(d.awards)
  }

  /** `handleSubmit`'s doctor: the texts copied, the seven lists parsed, a
      4.5 rating, no patients and no publications yet, available now, on
      standard hours. */
  function NewDoctor(f: DoctorForm): (d: DoctorInfo)
    ensures d.rating == 4.5 && d.patients == 0 && d.publications == 0
    ensures d.nextAvailable == "Available now"
    ensures d.availability.monday == d.availability.tuesday == d.availability.wednesday ==
            d.availability.thursday == d.availability.friday == ["9:00 AM", "5:00 PM"]
    ensures d.availability.saturday == d.availability.sunday == ["Closed"]
    ensures DoctorListsClean(d)
  {
    DoctorInfo(
      name := f.name,
      specialty := f.specialty,
      experience := f.experience,
      phone := f.phone,
      email := f.email,
      location := f.location,
      rating := 4.5,
      patients := 0,
      nextAvailable := "Available now",
      status := f.status,
      licenseNumber := f.licenseNumber,
      education := ParseList(f.education),
      certifications := ParseList(f.certifications),
      languages := ParseList(f.languages),
      availability := StandardHours,
      specialties := ParseList(f.specialties),
      hospitalAffiliations := ParseList(f.hospitalAffiliations),
      researchInterests := ParseList(f.researchInterests),
      publications := 0,
      awards := ParseList(f.awards))
  }

  /** A doctor record the dialog could have produced. */
  predicate DoctorSubmittable(d: DoctorInfo) {
    DoctorListsClean(d) && d.rating == 4.5 && d.patients == 0 && d.publications == 0 &&
    d.nextAvailable == "Available now" && d.availability == StandardHours
  }

  /** The form that describes a doctor record. */
  function DoctorFormOf(d: DoctorInfo): (f: DoctorForm)
    ensures f.status == d.status && f.name == d.name && f.licenseNumber == d.licenseNumber
  {
    DoctorForm(d.name, d.specialty, d.experience, d.phone, d.email, d.location, d.licenseNumber,
      Join(d.education, ','), Join(d.certifications, ','), Join(d.languages, ','),
      Join(d.specialties, ','), Join(d.hospitalAffiliations, ','), Join(d.researchInterests, ','),
      Join(d.awards, ','), d.status)
  }

  /** Submitting the form that describes a record the dialog can produce
      gives that record back. */
  lemma DoctorFormRoundTrip(d: DoctorInfo)
    requires DoctorSubmittable(d)
    ensures NewDoctor(DoctorFormOf(d)) == d
  {
    ParseListJoin(d.education);
    ParseListJoin(d.certifications);
    ParseListJoin(d.languages);
    ParseListJoin(d.specialties);
    ParseListJoin(d.hospitalAffiliations);
    ParseListJoin(d.researchInterests);
    ParseListJoin(d.awards);
  }

  /** Submitting puts the form back as it was when the dialog opened, and
      that untouched form gives an available doctor with every list empty. */
  lemma UntouchedDoctorForm()
    ensures ResetDoctorForm == InitialDoctorForm
    ensures var d := NewDoctor(InitialDoctorForm);
            d.status == DoctorStatus.Available && d.name == [] && d.education == [] && d.languages == [] &&
            d.awards == []
  {
    ParseListEmptyIff([]);
  }
}
