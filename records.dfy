/** The entity records of the care platform and their closed vocabularies:
    patients, doctors, appointments and messages, each as an id plus the
    `Omit<X, 'id'>` part the add operations take, and the `Partial<X>` patch
    the update operations merge in. */
module Records {
  import opened Wrappers
  import opened JsStrings

  datatype PatientStatus = Active | Inactive | Pending {
    function Name(): string {
      match this
      case Active => "active"
      case Inactive => "inactive"
      case Pending => "pending"
    }
  }

  datatype RiskLevel = Low | Medium | High | Critical {
    function Name(): string {
      match this
      case Low => "low"
      case Medium => "medium"
      case High => "high"
      case Critical => "critical"
    }
  }

  datatype DoctorStatus = Available | Busy | Surgery | OnCall | OffDuty {
    function Name(): string {
      match this
      case Available => "available"
      case Busy => "busy"
      case Surgery => "surgery"
      case OnCall => "on-call"
      case OffDuty => "off-duty"
    }
  }

  datatype AppointmentType = Video | Clinic | Emergency | FollowUp | Consultation {
    function Name(): string {
      match this
      case Video => "video"
      case Clinic => "clinic"
      case Emergency => "emergency"
      case FollowUp => "follow-up"
      case Consultation => "consultation"
    }
  }

  datatype AppointmentStatus = Confirmed | Pending | Cancelled | Completed | Rescheduled {
    function Name(): string {
      match this
      case Confirmed => "confirmed"
      case Pending => "pending"
      case Cancelled => "cancelled"
      case Completed => "completed"
      case Rescheduled => "rescheduled"
    }
  }

  datatype PaymentStatus = Pending | Paid | Partial | Waived {
    function Name(): string {
      match this
      case Pending => "pending"
      case Paid => "paid"
      case Partial => "partial"
      case Waived => "waived"
    }
  }

  datatype Priority = Low | Normal | High | Urgent {
    function Name(): string {
      match this
      case Low => "low"
      case Normal => "normal"
      case High => "high"
      case Urgent => "urgent"
    }
  }

  datatype EmergencyContact = EmergencyContact(name: string, phone: string, relationship: string)

  /** A doctor's opening hours, one list of time texts per weekday. */
  datatype Availability = Availability(
    monday: seq<string>,
    tuesday: seq<string>,
    wednesday: seq<string>,
    thursday: seq<string>,
    friday: seq<string>,
    saturday: seq<string>,
    sunday: seq<string>)

  /** One field of a spread: the patch's value when it carries one. */
  function Override<T>(u: Option<T>, current: T): (r: T)
    ensures u.Some? ==> r == u.value
    ensures u.None? ==> r == current
  {
    if u.Some? then u.value else current
  }

  /** `age` is what `parseInt` gave, so it may be `NaN`; `bmi` is a real. */
  datatype PatientInfo = PatientInfo(
    name: string,
    age: Num,
    phone: string,
    email: string,
    lastVisit: string,
    condition: string,
    status: PatientStatus,
    riskLevel: RiskLevel,
    address: string,
    emergencyContact: EmergencyContact,
    insurance: string,
    primaryCarePhysician: string,
    allergies: seq<string>,
    medications: seq<string>,
    bloodType: string,
    height: string,
    weight: string,
    bmi: real,
    lastLabResults: string,
    nextAppointment: string,
    notes: string)

  datatype Patient = Patient(id: string, info: PatientInfo)

  /** `Partial<Patient>`: each field, the id included, may be absent. */
  datatype PatientPatch = PatientPatch(
    id: Option<string>,
    name: Option<string>,
    age: Option<Num>,
    phone: Option<string>,
    email: Option<string>,
    lastVisit: Option<string>,
    condition: Option<string>,
    status: Option<PatientStatus>,
    riskLevel: Option<RiskLevel>,
    address: Option<string>,
    emergencyContact: Option<EmergencyContact>,
    insurance: Option<string>,
    primaryCarePhysician: Option<string>,
    allergies: Option<seq<string>>,
    medications: Option<seq<string>>,
    bloodType: Option<string>,
    height: Option<string>,
    weight: Option<string>,
    bmi: Option<real>,
    lastLabResults: Option<string>,
    nextAppointment: Option<string>,
    notes: Option<string>)

  /** The patch that sets nothing. */
  const EmptyPatientPatch := PatientPatch(None, None, None, None, None, None, None, None, None, None, None, None, None, None, None, None, None, None, None, None, None, None)

  /** `{ ...p, ...updates }`: every field the patch carries overrides the record's. */
  function MergePatient(r: Patient, u: PatientPatch): (m: Patient)
    ensures m.id == Override(u.id, r.id)
    ensures u == EmptyPatientPatch ==> m == r
  {
    Patient(Override(u.id, r.id), PatientInfo(
      Override(u.name, r.info.name),
      Override(u.age, r.info.age),
      Override(u.phone, r.info.phone),
      Override(u.email, r.info.email),
      Override(u.lastVisit, r.info.lastVisit),
      Override(u.condition, r.info.condition),
      Override(u.status, r.info.status),
      Override(u.riskLevel, r.info.riskLevel),
      Override(u.address, r.info.address),
      Override(u.emergencyContact, r.info.emergencyContact),
      Override(u.insurance, r.info.insurance),
      Override(u.primaryCarePhysician, r.info.primaryCarePhysician),
      Override(u.allergies, r.info.allergies),
      Override(u.medications, r.info.medications),
      Override(u.bloodType, r.info.bloodType),
      Override(u.height, r.info.height),
      Override(u.weight, r.info.weight),
      Override(u.bmi, r.info.bmi),
      Override(u.lastLabResults, r.info.lastLabResults),
      Override(u.nextAppointment, r.info.nextAppointment),
      Override(u.notes, r.info.notes)))
  }

  /** `rating` is a real; `patients` and `publications` are counts. */
  datatype DoctorInfo = DoctorInfo(
    name: string,
    specialty: string,
    experience: string,
    phone: string,
    email: string,
    location: string,
    rating: real,
    patients: int,
    nextAvailable: string,
    status: DoctorStatus,
    licenseNumber: string,
    education: seq<string>,
    certifications: seq<string>,
    languages: seq<string>,
    availability: Availability,
    specialties: seq<string>,
    hospitalAffiliations: seq<string>,
    researchInterests: seq<string>,
    publications: int,
    awards: seq<string>)

  datatype Doctor = Doctor(id: string, info: DoctorInfo)

  /** `Partial<Doctor>`: each field, the id included, may be absent. */
  datatype DoctorPatch = DoctorPatch(
    id: Option<string>,
    name: Option<string>,
    specialty: Option<string>,
    experience: Option<string>,
    phone: Option<string>,
    email: Option<string>,
    location: Option<string>,
    rating: Option<real>,
    patients: Option<int>,
    nextAvailable: Option<string>,
    status: Option<DoctorStatus>,
    licenseNumber: Option<string>,
    education: Option<seq<string>>,
    certifications: Option<seq<string>>,
    languages: Option<seq<string>>,
    availability: Option<Availability>,
    specialties: Option<seq<string>>,
    hospitalAffiliations: Option<seq<string>>,
    researchInterests: Option<seq<string>>,
    publications: Option<int>,
    awards: Option<seq<string>>)

  /** The patch that sets nothing. */
  const EmptyDoctorPatch := DoctorPatch(None, None, None, None, None, None, None, None, None, None, None, None, None, None, None, None, None, None, None, None, None)

  /** `{ ...d, ...updates }`: every field the patch carries overrides the record's. */
  function MergeDoctor(r: Doctor, u: DoctorPatch): (m: Doctor)
    ensures m.id == Override(u.id, r.id)
    ensures u == EmptyDoctorPatch ==> m == r
  {
    Doctor(Override(u.id, r.id), DoctorInfo(
      Override(u.name, r.info.name),
      Override(u.specialty, r.info.specialty),
      Override(u.experience, r.info.experience),
      Override(u.phone, r.info.phone),
      Override(u.email, r.info.email),
      Override(u.location, r.info.location),
      Override(u.rating, r.info.rating),
      Override(u.patients, r.info.patients),
      Override(u.nextAvailable, r.info.nextAvailable),
      Override(u.status, r.info.status),
      Override(u.licenseNumber, r.info.licenseNumber),
      Override(u.education, r.info.education),
      Override(u.certifications, r.info.certifications),
      Override(u.languages, r.info.languages),
      Override(u.availability, r.info.availability),
      Override(u.specialties, r.info.specialties),
      Override(u.hospitalAffiliations, r.info.hospitalAffiliations),
      Override(u.researchInterests, r.info.researchInterests),
      Override(u.publications, r.info.publications),
      Override(u.awards, r.info.awards)))
  }

  /** `date` is a day key `YYYYMMDD` whose order is the order of the source's
      `YYYY-MM-DD` text; `kind` is the source's `type`; `cost` is in whole dollars. */
  datatype AppointmentInfo = AppointmentInfo(
    patient: string,
    doctor: string,
    time: string,
    date: int,
    duration: string,
    kind: AppointmentType,
    status: AppointmentStatus,
    reason: string,
    location: string,
    notes: string,
    symptoms: seq<string>,
    diagnosis: string,
    treatment: string,
    followUpDate: string,
    insurance: string,
    cost: int,
    paymentStatus: PaymentStatus)

  datatype Appointment = Appointment(id: string, info: AppointmentInfo)

  /** `10` to the power `k`. */
  function Pow10(k: nat): (r: nat)
    ensures r >= 1
  {
    if k == 0 then 1 else 10 * Pow10(k - 1)
  }

  /** A count's decimal text is no longer than the digits its size allows. */
  lemma {:induction false} NatToStringLength(n: nat, w: nat)
    ensures 1 <= w && n < Pow10(w) ==> |NatToString(n)| <= w
  {
    if 1 <= w && n < Pow10(w) && n >= 10 {
      assert Pow10(1) == 10;
      assert w != 1;
      NatToStringLength(n / 10, w - 1);
    }
  }

  function Zeros(k: nat): string {
    seq(k, _ => '0')
  }

  lemma {:induction false} ZerosValue(k: nat)
    ensures DecimalValue(Zeros(k)) == 0
  {
    if k > 0 {
      assert Zeros(k)[..k - 1] == Zeros(k - 1);
      ZerosValue(k - 1);
    }
  }

  /** Leading zeros do not change a decimal value. */
  lemma {:induction false} DecimalValueAfterZeros(k: nat, s: string)
    requires forall i :: 0 <= i < |s| ==> IsDigit(s[i])
    ensures DecimalValue(Zeros(k) + s) == DecimalValue(s)
    decreases |s|
  {
    if s == [] {
      assert Zeros(k) + s == Zeros(k);
      ZerosValue(k);
    } else {
      var t := Zeros(k) + s;
      assert t[..|t| - 1] == Zeros(k) + s[..|s| - 1];
      DecimalValueAfterZeros(k, s[..|s| - 1]);
    }
  }

  /** The decimal text of `n` with leading zeros up to `width` characters,
      as dates are written. */
  function ZeroPadded(n: nat, width: nat): (r: string)
    ensures |r| >= width
    ensures forall i :: 0 <= i < |r| ==> IsDigit(r[i])
    ensures DecimalValue(r) == n
    ensures 1 <= width && n < Pow10(width) ==> |r| == width
  {
    var s := NatToString(n);
    NatToStringLength(n, width);
    if |s| >= width then s
    else
      DecimalValueAfterZeros(width - |s|, s);
      Zeros(width - |s|) + s
  }

  /** The `YYYY-MM-DD` text the source holds for the day key `d` (a negative
      key, which no date has, is read as 0). */
  function DateText(d: int): (r: string)
    ensures 0 <= d < 100000000 ==> |r| == 10 && r[4] == '-' && r[7] == '-'
    ensures forall i :: 0 <= i < |r| ==> IsDigit(r[i]) || r[i] == '-'
  {
    var k := if d < 0 then 0 else d;
    assert Pow10(2) == 100 && Pow10(4) == 10000;
    assert k < 100000000 ==> k / 10000 < 10000;
    assert k / 100 % 100 < 100 && k % 100 < 100;
    ZeroPadded(k / 10000, 4) + "-" + ZeroPadded(k / 100 % 100, 2) + "-" + ZeroPadded(k % 100, 2)
  }

  /** Two day keys with the same text are the same day, so comparing the
      texts compares the days. */
  lemma DateTextInjective(d1: int, d2: int)
    requires 0 <= d1 < 100000000 && 0 <= d2 < 100000000
    requires DateText(d1) == DateText(d2)
    ensures d1 == d2
  {
    DateTextParts(d1);
    DateTextParts(d2);
    DayKeyParts(d1);
    DayKeyParts(d2);
  }

  /** The three dash-separated parts of a date's text are the decimal texts
      of its year, month and day. */
  lemma DateTextParts(d: int)
    requires 0 <= d < 100000000
    ensures DecimalValue(DateText(d)[..4]) == d / 10000
    ensures DecimalValue(DateText(d)[5..7]) == d / 100 % 100
    ensures DecimalValue(DateText(d)[8..]) == d % 100
  {
    assert Pow10(2) == 100 && Pow10(4) == 10000;
    assert d / 10000 < 10000;
    var y, m, n := ZeroPadded(d / 10000, 4), ZeroPadded(d / 100 % 100, 2), ZeroPadded(d % 100, 2);
    DashedParts(y, m, n);
  }

  lemma DashedParts(y: string, m: string, n: string)
    requires |y| == 4 && |m| == 2
    ensures var r := y + "-" + m + "-" + n; r[..4] == y && r[5..7] == m && r[8..] == n
  {
    var r := y + "-" + m + "-" + n;
    assert r[..4] == y;
    assert r[5..7] == m;
    assert r[8..] == n;
  }

  lemma DayKeyParts(d: nat)
    ensures d == d / 10000 * 10000 + d / 100 % 100 * 100 + d % 100
  {
    assert d / 100 == d / 10000 * 100 + d / 100 % 100;
  }

  /** The seed day's key reads as the seed day's text. */
  lemma SeedDateText()
    ensures DateText(20240118) == "2024-01-18"
  {
    assert 20240118 / 10000 == 2024 && 20240118 / 100 % 100 == 1 && 20240118 % 100 == 18;
    assert NatToString(20) == "20";
    assert NatToString(202) == "202";
    assert NatToString(2024) == "2024";
    assert ZeroPadded(2024, 4) == "2024";
    assert NatToString(1) == "1";
    assert Zeros(1) == "0";
    assert ZeroPadded(1, 2) == "01";
    assert NatToString(18) == "18";
    assert ZeroPadded(18, 2) == "18";
  }

  /** `Partial<Appointment>`: each field, the id included, may be absent. */
  datatype AppointmentPatch = AppointmentPatch(
    id: Option<string>,
    patient: Option<string>,
    doctor: Option<string>,
    time: Option<string>,
    date: Option<int>,
    duration: Option<string>,
    kind: Option<AppointmentType>,
    status: Option<AppointmentStatus>,
    reason: Option<string>,
    location: Option<string>,
    notes: Option<string>,
    symptoms: Option<seq<string>>,
    diagnosis: Option<string>,
    treatment: Option<string>,
    followUpDate: Option<string>,
    insurance: Option<string>,
    cost: Option<int>,
    paymentStatus: Option<PaymentStatus>)

  /** The patch that sets nothing. */
  const EmptyAppointmentPatch := AppointmentPatch(None, None, None, None, None, None, None, None, None, None, None, None, None, None, None, None, None, None)

  /** `{ ...a, ...updates }`: every field the patch carries overrides the record's. */
  function MergeAppointment(r: Appointment, u: AppointmentPatch): (m: Appointment)
    ensures m.id == Override(u.id, r.id)
    ensures u == EmptyAppointmentPatch ==> m == r
  {
    Appointment(Override(u.id, r.id), AppointmentInfo(
      Override(u.patient, r.info.patient),
      Override(u.doctor, r.info.doctor),
      Override(u.time, r.info.time),
      Override(u.date, r.info.date),
      Override(u.duration, r.info.duration),
      Override(u.kind, r.info.kind),
      Override(u.status, r.info.status),
      Override(u.reason, r.info.reason),
      Override(u.location, r.info.location),
      Override(u.notes, r.info.notes),
      Override(u.symptoms, r.info.symptoms),
      Override(u.diagnosis, r.info.diagnosis),
      Override(u.treatment, r.info.treatment),
      Override(u.followUpDate, r.info.followUpDate),
      Override(u.insurance, r.info.insurance),
      Override(u.cost, r.info.cost),
      Override(u.paymentStatus, r.info.paymentStatus)))
  }

  /** `timestamp` is a minute key `YYYYMMDDHHMM` whose order is the order of the
      instants the source's timestamp text denotes. */
  datatype MessageInfo = MessageInfo(
    sender: string,
    content: string,
    timestamp: int,
    isFromUser: bool,
    attachments: seq<string>,
    priority: Priority,
    read: bool,
    threadId: string)

  datatype Message = Message(id: string, info: MessageInfo)

  /** `Partial<Message>`: each field, the id included, may be absent. */
  datatype MessagePatch = MessagePatch(
    id: Option<string>,
    sender: Option<string>,
    content: Option<string>,
    timestamp: Option<int>,
    isFromUser: Option<bool>,
    attachments: Option<seq<string>>,
    priority: Option<Priority>,
    read: Option<bool>,
    threadId: Option<string>)

  /** The patch that sets nothing. */
  const EmptyMessagePatch := MessagePatch(None, None, None, None, None, None, None, None, None)

  /** `{ ...m, ...updates }`: every field the patch carries overrides the record's. */
  function MergeMessage(r: Message, u: MessagePatch): (m: Message)
    ensures m.id == Override(u.id, r.id)
    ensures u == EmptyMessagePatch ==> m == r
  {
    Message(Override(u.id, r.id), MessageInfo(
      Override(u.sender, r.info.sender),
      Override(u.content, r.info.content),
      Override(u.timestamp, r.info.timestamp),
      Override(u.isFromUser, r.info.isFromUser),
      Override(u.attachments, r.info.attachments),
      Override(u.priority, r.info.priority),
      Override(u.read, r.info.read),
      Override(u.threadId, r.info.threadId)))
  }
}
