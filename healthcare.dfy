/** The store of `src/hooks/use-healthcare.ts`: four record collections with
    the search term, the selected filters, the sort order and the page. The
    filtered lists, the page slice and the dashboard counts are functions of
    that state; the add, update and delete actions and the filter setters are
    methods of `Store`. */
module Healthcare {
  import opened Wrappers
  import opened Seqs
  import opened JsStrings
  import opened Records
  import opened Utils
  import opened Data

  // ---------------------------------------------------------------------
  // Selected filters

  /** A value stored under a filter key: text from a select, an input or a
      date picker (a date as its `YYYY-MM-DD` text), or a checkbox flag. */
  datatype FilterValue = Text(text: string) | Flag(flag: bool)

  /** `selectedFilters`: an unset key is absent. */
  type Filters = map<string, FilterValue>

  datatype SortOrder = Asc | Desc

  /** JavaScript truthiness: the empty text and `false` are falsy. */
  predicate Truthy(v: FilterValue) {
    match v
    case Text(t) => t != []
    case Flag(b) => b
  }

  /** `selectedFilters[key]` is truthy. */
  predicate IsSet(f: Filters, key: string) {
    key in f && Truthy(f[key])
  }

  /** `selectedFilters[key] && selectedFilters[key] !== 'all'`. */
  predicate Narrows(f: Filters, key: string) {
    IsSet(f, key) && f[key] != Text("all")
  }

  /** The value under `key`; an absent key reads as a falsy value. */
  function Lookup(f: Filters, key: string): FilterValue {
    if key in f then f[key] else Flag(false)
  }

  /** The text `String(value)` gives. */
  function AsText(v: FilterValue): string {
    match v
    case Text(t) => t
    case Flag(b) => if b then "true" else "false"
  }

  /** `record.field === value` for a text field: only text can be equal. */
  function FieldIs<T>(value: FilterValue, field: T -> string): T -> bool {
    x => value == Text(field(x))
  }

  /** `record.field.includes(value)`: the value is read as text. */
  function FieldIncludes<T>(value: FilterValue, field: T -> string): T -> bool {
    x => Contains(field(x), AsText(value))
  }

  /** `record.field.toLowerCase().includes(value.toLowerCase())`: only a text
      value has `toLowerCase`. */
  function FieldIncludesIgnoringCase<T>(value: FilterValue, field: T -> string): T -> bool {
    x => value.Text? && Contains(ToLower(field(x)), ToLower(value.text))
  }


  /** `m.read === value`. */
  function ReadIs(value: FilterValue): Message -> bool {
    (m: Message) => value == Flag(m.info.read)
  }

  function PatientStatusName(p: Patient): string { p.info.status.Name() }
  function PatientRiskName(p: Patient): string { p.info.riskLevel.Name() }
  function PatientCondition(p: Patient): string { p.info.condition }
  function DoctorSpecialty(d: Doctor): string { d.info.specialty }
  function DoctorStatusName(d: Doctor): string { d.info.status.Name() }
  function DoctorExperience(d: Doctor): string { d.info.experience }
  function AppointmentStatusName(a: Appointment): string { a.info.status.Name() }
  function AppointmentTypeName(a: Appointment): string { a.info.kind.Name() }
  function MessagePriorityName(m: Message): string { m.info.priority.Name() }

  /** Patients and doctors carry neither `date` nor `timestamp`, so the sort
      compares `NaN` with `NaN` and every pair counts as equal. */
  function Undated<T>(x: T): int { 0 }

  function MessageTime(m: Message): int { m.info.timestamp }

  // ---------------------------------------------------------------------
  // Pipelines

  /** One `if (...) filtered = filtered.filter(keep)` step. */
  datatype Stage<!T> = Stage(on: bool, keep: T -> bool)

  /** The steps applied one after another. */
  function Narrow<T>(s: seq<T>, stages: seq<Stage<T>>): seq<T>
    decreases |stages|
  {
    if stages == [] then s
    else Narrow(if stages[0].on then Filter(s, stages[0].keep) else s, stages[1..])
  }

  /** `x` survives every step that is switched on. */
  predicate PassesAll<T>(stages: seq<Stage<T>>, x: T) {
    forall i :: 0 <= i < |stages| ==> stages[i].on ==> stages[i].keep(x)
  }

  function Passes<T>(stages: seq<Stage<T>>): T -> bool {
    x => PassesAll(stages, x)
  }

  /** A run of steps is one filter by the conjunction of the steps that are on. */
  lemma {:induction false} NarrowIsFilter<T>(s: seq<T>, stages: seq<Stage<T>>)
    ensures Narrow(s, stages) == Filter(s, Passes(stages))
    decreases |stages|
  {
    if stages == [] {
      FilterKeepsAll(s, Passes(stages));
    } else {
      var st, rest := stages[0], stages[1..];
      var s1 := if st.on then Filter(s, st.keep) else s;
      NarrowIsFilter(s1, rest);
      forall x ensures PassesAll(stages, x) == ((st.on ==> st.keep(x)) && PassesAll(rest, x)) {
        if PassesAll(stages, x) {
          forall i | 0 <= i < |rest| ensures rest[i].on ==> rest[i].keep(x) {
            assert rest[i] == stages[i + 1];
          }
        }
        if (st.on ==> st.keep(x)) && PassesAll(rest, x) {
          forall i | 0 <= i < |stages| ensures stages[i].on ==> stages[i].keep(x) {
            if i > 0 {
              assert stages[i] == rest[i - 1];
            }
          }
        }
      }
      if st.on {
        FilterFilter(s, st.keep, Passes(rest), Passes(stages));
      } else {
        FilterAgree(s, Passes(rest), Passes(stages));
      }
    }
  }

  /** Passing three steps is passing each of them. */
  lemma PassesThree<T>(stages: seq<Stage<T>>, x: T)
    requires |stages| == 3
    ensures PassesAll(stages, x) ==
      ((stages[0].on ==> stages[0].keep(x)) && (stages[1].on ==> stages[1].keep(x)) &&
       (stages[2].on ==> stages[2].keep(x)))
  {
  }

  /** Passing four steps is passing each of them. */
  lemma PassesFour<T>(stages: seq<Stage<T>>, x: T)
    requires |stages| == 4
    ensures PassesAll(stages, x) ==
      ((stages[0].on ==> stages[0].keep(x)) && (stages[1].on ==> stages[1].keep(x)) &&
       (stages[2].on ==> stages[2].keep(x)) && (stages[3].on ==> stages[3].keep(x)))
  {
  }

  /** `if (searchTerm) filtered = filterBySearch(filtered, searchTerm, fields)`. */
  function Searched<T>(items: seq<T>, term: string, fields: T -> seq<string>): seq<T> {
    if term != [] then FilterBySearch(items, term, fields) else items
  }

  /** The search test on one record: a blank term passes everything. */
  predicate MatchesSearch(term: string, values: seq<string>) {
    IsBlank(term) || AnyFieldContains(values, ToLower(term))
  }

  /** Search, then the steps, is one filter by the conjunction. */
  lemma PipelineIsFilter<T>(items: seq<T>, term: string, fields: T -> seq<string>,
                            stages: seq<Stage<T>>, query: T -> bool)
    requires forall x :: query(x) == (MatchesSearch(term, fields(x)) && PassesAll(stages, x))
    ensures Narrow(Searched(items, term, fields), stages) == Filter(items, query)
  {
    var search := (x: T) => MatchesSearch(term, fields(x));
    TrimEmptyIffBlank(term);
    if IsBlank(term) {
      FilterKeepsAll(items, search);
    } else {
      FilterAgree(items, SearchMatch(term, fields), search);
    }
    assert Searched(items, term, fields) == Filter(items, search);
    NarrowIsFilter(Searched(items, term, fields), stages);
    FilterFilter(items, search, Passes(stages), query);
  }

  function PatientSearchFields(p: Patient): seq<string> {
    [p.info.name, p.info.condition, p.info.email, p.info.phone]
  }

  function PatientStages(f: Filters): seq<Stage<Patient>> {
    [Stage(Narrows(f, "status"), FieldIs(Lookup(f, "status"), PatientStatusName)),
     Stage(Narrows(f, "riskLevel"), FieldIs(Lookup(f, "riskLevel"), PatientRiskName)),
     Stage(IsSet(f, "condition"), FieldIncludesIgnoringCase(Lookup(f, "condition"), PatientCondition))]
  }

  /** `filteredPatients`: search, the status, risk-level and condition
      filters, then `sortByDate`, which leaves undated records in order. */
  function FilteredPatients(ps: seq<Patient>, term: string, f: Filters, order: SortOrder): seq<Patient> {
    SortByDate(Narrow(Searched(ps, term, PatientSearchFields), PatientStages(f)), Undated, order == Asc)
  }

  /** A patient passes the selected filters. */
  predicate PatientFiltersHold(p: Patient, f: Filters) {
    (Narrows(f, "status") ==> f["status"] == Text(p.info.status.Name())) &&
    (Narrows(f, "riskLevel") ==> f["riskLevel"] == Text(p.info.riskLevel.Name())) &&
    (IsSet(f, "condition") ==>
       f["condition"].Text? && Contains(ToLower(p.info.condition), ToLower(f["condition"].text)))
  }

  function PatientQuery(term: string, f: Filters): Patient -> bool {
    p => MatchesSearch(term, PatientSearchFields(p)) && PatientFiltersHold(p, f)
  }

  /** The patient list is exactly the patients that match the search and
      every selected filter, in their stored order whatever the sort order. */
  lemma FilteredPatientsMeaning(ps: seq<Patient>, term: string, f: Filters, order: SortOrder)
    ensures FilteredPatients(ps, term, f, order) == Filter(ps, PatientQuery(term, f))
  {
    var stages := PatientStages(f);
    forall p ensures PassesAll(stages, p) == PatientFiltersHold(p, f) {
      PassesThree(stages, p);
      assert stages[0].keep(p) == (Lookup(f, "status") == Text(PatientStatusName(p)));
      assert stages[1].keep(p) == (Lookup(f, "riskLevel") == Text(PatientRiskName(p)));
      var c := Lookup(f, "condition");
      assert stages[2].keep(p) == (c.Text? && Contains(ToLower(PatientCondition(p)), ToLower(c.text)));
    }
    PipelineIsFilter(ps, term, PatientSearchFields, stages, PatientQuery(term, f));
    SortByDateConstant(Filter(ps, PatientQuery(term, f)), Undated, order == Asc);
  }

  function DoctorSearchFields(d: Doctor): seq<string> {
    [d.info.name, d.info.specialty, d.info.location, d.info.email, d.info.phone]
  }

  function DoctorStages(f: Filters): seq<Stage<Doctor>> {
    [Stage(Narrows(f, "specialty"), FieldIs(Lookup(f, "specialty"), DoctorSpecialty)),
     Stage(Narrows(f, "status"), FieldIs(Lookup(f, "status"), DoctorStatusName)),
     Stage(IsSet(f, "experience"), FieldIncludes(Lookup(f, "experience"), DoctorExperience))]
  }

  /** `filteredDoctors`: search, the specialty, status and experience
      filters, then `sortByDate`. */
  function FilteredDoctors(ds: seq<Doctor>, term: string, f: Filters, order: SortOrder): seq<Doctor> {
    SortByDate(Narrow(Searched(ds, term, DoctorSearchFields), DoctorStages(f)), Undated, order == Asc)
  }

  predicate DoctorFiltersHold(d: Doctor, f: Filters) {
    (Narrows(f, "specialty") ==> f["specialty"] == Text(d.info.specialty)) &&
    (Narrows(f, "status") ==> f["status"] == Text(d.info.status.Name())) &&
    (IsSet(f, "experience") ==>
       Contains(d.info.experience, AsText(f["experience"])))
  }

  function DoctorQuery(term: string, f: Filters): Doctor -> bool {
    d => MatchesSearch(term, DoctorSearchFields(d)) && DoctorFiltersHold(d, f)
  }

  /** The doctor list is exactly the matching doctors, in stored order. */
  lemma FilteredDoctorsMeaning(ds: seq<Doctor>, term: string, f: Filters, order: SortOrder)
    ensures FilteredDoctors(ds, term, f, order) == Filter(ds, DoctorQuery(term, f))
  {
    var stages := DoctorStages(f);
    forall d ensures PassesAll(stages, d) == DoctorFiltersHold(d, f) {
      PassesThree(stages, d);
      assert stages[0].keep(d) == (Lookup(f, "specialty") == Text(DoctorSpecialty(d)));
      assert stages[1].keep(d) == (Lookup(f, "status") == Text(DoctorStatusName(d)));
      var e := Lookup(f, "experience");
      assert stages[2].keep(d) == Contains(DoctorExperience(d), AsText(e));
    }
    PipelineIsFilter(ds, term, DoctorSearchFields, stages, DoctorQuery(term, f));
    SortByDateConstant(Filter(ds, DoctorQuery(term, f)), Undated, order == Asc);
  }

  /** The appointment's `date` field, the text a date filter is compared with. */
  function AppointmentDateText(a: Appointment): string { DateText(a.info.date) }

  function AppointmentSearchFields(a: Appointment): seq<string> {
    [a.info.patient, a.info.doctor, a.info.reason, a.info.location]
  }

  function AppointmentStages(f: Filters): seq<Stage<Appointment>> {
    [Stage(Narrows(f, "status"), FieldIs(Lookup(f, "status"), AppointmentStatusName)),
     Stage(Narrows(f, "type"), FieldIs(Lookup(f, "type"), AppointmentTypeName)),
     Stage(IsSet(f, "date"), FieldIs(Lookup(f, "date"), AppointmentDateText)),
     Stage(IsSet(f, "doctor"), FieldIs(Lookup(f, "doctor"), AppointmentDoctor))]
  }

  /** `filteredAppointments`: search, the status, type, date and doctor
      filters, then `sortByDate` on the appointment date. */
  function FilteredAppointments(appts: seq<Appointment>, term: string, f: Filters, order: SortOrder): seq<Appointment> {
    SortByDate(Narrow(Searched(appts, term, AppointmentSearchFields), AppointmentStages(f)), AppointmentDate, order == Asc)
  }

  predicate AppointmentFiltersHold(a: Appointment, f: Filters) {
    (Narrows(f, "status") ==> f["status"] == Text(a.info.status.Name())) &&
    (Narrows(f, "type") ==> f["type"] == Text(a.info.kind.Name())) &&
    (IsSet(f, "date") ==> f["date"] == Text(DateText(a.info.date))) &&
    (IsSet(f, "doctor") ==> f["doctor"] == Text(a.info.doctor))
  }

  function AppointmentQuery(term: string, f: Filters): Appointment -> bool {
    a => MatchesSearch(term, AppointmentSearchFields(a)) && AppointmentFiltersHold(a, f)
  }

  /** The appointment list is the matching appointments, stably sorted by
      date in the chosen direction. */
  lemma FilteredAppointmentsMeaning(appts: seq<Appointment>, term: string, f: Filters, order: SortOrder)
    ensures FilteredAppointments(appts, term, f, order) ==
            SortByDate(Filter(appts, AppointmentQuery(term, f)), AppointmentDate, order == Asc)
  {
    var stages := AppointmentStages(f);
    forall a ensures PassesAll(stages, a) == AppointmentFiltersHold(a, f) {
      PassesFour(stages, a);
      assert stages[0].keep(a) == (Lookup(f, "status") == Text(AppointmentStatusName(a)));
      assert stages[1].keep(a) == (Lookup(f, "type") == Text(AppointmentTypeName(a)));
      assert stages[2].keep(a) == (Lookup(f, "date") == Text(AppointmentDateText(a)));
      assert stages[3].keep(a) == (Lookup(f, "doctor") == Text(AppointmentDoctor(a)));
    }
    PipelineIsFilter(appts, term, AppointmentSearchFields, stages, AppointmentQuery(term, f));
  }

  function MessageSearchFields(m: Message): seq<string> {
    [m.info.sender, m.info.content]
  }

  function MessageStages(f: Filters): seq<Stage<Message>> {
    [Stage(Narrows(f, "priority"), FieldIs(Lookup(f, "priority"), MessagePriorityName)),
     Stage(IsSet(f, "read"), ReadIs(Lookup(f, "read"))),
     Stage(IsSet(f, "threadId"), FieldIs(Lookup(f, "threadId"), MessageThread))]
  }

  /** `filteredMessages`: search, the priority, read and thread filters,
      then `sortByDate` on the timestamp. */
  function FilteredMessages(ms: seq<Message>, term: string, f: Filters, order: SortOrder): seq<Message> {
    SortByDate(Narrow(Searched(ms, term, MessageSearchFields), MessageStages(f)), MessageTime, order == Asc)
  }

  predicate MessageFiltersHold(m: Message, f: Filters) {
    (Narrows(f, "priority") ==> f["priority"] == Text(m.info.priority.Name())) &&
    (IsSet(f, "read") ==> f["read"] == Flag(m.info.read)) &&
    (IsSet(f, "threadId") ==> f["threadId"] == Text(m.info.threadId))
  }

  function MessageQuery(term: string, f: Filters): Message -> bool {
    m => MatchesSearch(term, MessageSearchFields(m)) && MessageFiltersHold(m, f)
  }

  /** The message list is the matching messages, stably sorted by time. */
  lemma FilteredMessagesMeaning(ms: seq<Message>, term: string, f: Filters, order: SortOrder)
    ensures FilteredMessages(ms, term, f, order) ==
            SortByDate(Filter(ms, MessageQuery(term, f)), MessageTime, order == Asc)
  {
    var stages := MessageStages(f);
    forall m ensures PassesAll(stages, m) == MessageFiltersHold(m, f) {
      PassesThree(stages, m);
      assert stages[0].keep(m) == (Lookup(f, "priority") == Text(MessagePriorityName(m)));
      assert stages[1].keep(m) == ReadIs(Lookup(f, "read"))(m);
      assert stages[2].keep(m) == (Lookup(f, "threadId") == Text(MessageThread(m)));
    }
    PipelineIsFilter(ms, term, MessageSearchFields, stages, MessageQuery(term, f));
  }

  // ---------------------------------------------------------------------
  // Single choices

  /** A select value that narrows a list: truthy and not `'all'`. */
  predicate Selects(v: FilterValue) {
    Truthy(v) && v != Text("all")
  }

  /** With no search and one status or risk-level choice, `'all'` or an
      empty choice shows every patient and any other value shows exactly
      the patients whose field has that value. */
  lemma PatientChoice(ps: seq<Patient>, key: string, v: FilterValue, order: SortOrder)
    requires key == "status" || key == "riskLevel"
    ensures !Selects(v) ==> (FilteredPatients(ps, "", map[key := v], order) == ps)
    ensures Selects(v) ==> (FilteredPatients(ps, "", map[key := v], order) ==
              Filter(ps, FieldIs(v, if key == "status" then PatientStatusName else PatientRiskName)))
  {
    FilteredPatientsMeaning(ps, "", map[key := v], order);
    PatientChoiceFilter(ps, key, v);
  }

  lemma PatientChoiceFilter(ps: seq<Patient>, key: string, v: FilterValue)
    requires key == "status" || key == "riskLevel"
    ensures Filter(ps, PatientQuery("", map[key := v])) ==
            if Selects(v) then Filter(ps, FieldIs(v, if key == "status" then PatientStatusName else PatientRiskName)) else ps
  {
    var q := PatientQuery("", map[key := v]);
    var field := if key == "status" then PatientStatusName else PatientRiskName;
    forall p ensures q(p) == (Selects(v) ==> FieldIs(v, field)(p)) {
      PatientChoiceHolds(p, key, v);
    }
    if Selects(v) {
      FilterAgree(ps, q, FieldIs(v, field));
    } else {
      FilterKeepsAll(ps, q);
    }
  }

  lemma PatientChoiceHolds(p: Patient, key: string, v: FilterValue)
    requires key == "status" || key == "riskLevel"
    ensures PatientQuery("", map[key := v])(p) ==
            (Selects(v) ==> FieldIs(v, if key == "status" then PatientStatusName else PatientRiskName)(p))
  {
    var f := map[key := v];
    assert MatchesSearch("", PatientSearchFields(p));
    if key == "status" {
      assert !IsSet(f, "condition") && !Narrows(f, "riskLevel");
      assert FieldIs(v, PatientStatusName)(p) == (v == Text(PatientStatusName(p)));
    } else {
      assert !IsSet(f, "condition") && !Narrows(f, "status");
      assert FieldIs(v, PatientRiskName)(p) == (v == Text(PatientRiskName(p)));
    }
  }

  /** With no search and one specialty or status choice, `'all'` or an
      empty choice shows every doctor and any other value shows exactly the
      doctors whose field has that value. */
  lemma DoctorChoice(ds: seq<Doctor>, key: string, v: FilterValue, order: SortOrder)
    requires key == "specialty" || key == "status"
    ensures !Selects(v) ==> (FilteredDoctors(ds, "", map[key := v], order) == ds)
    ensures Selects(v) ==> (FilteredDoctors(ds, "", map[key := v], order) ==
              Filter(ds, FieldIs(v, if key == "specialty" then DoctorSpecialty else DoctorStatusName)))
  {
    FilteredDoctorsMeaning(ds, "", map[key := v], order);
    DoctorChoiceFilter(ds, key, v);
  }

  lemma DoctorChoiceFilter(ds: seq<Doctor>, key: string, v: FilterValue)
    requires key == "specialty" || key == "status"
    ensures Filter(ds, DoctorQuery("", map[key := v])) ==
            if Selects(v) then Filter(ds, FieldIs(v, if key == "specialty" then DoctorSpecialty else DoctorStatusName)) else ds
  {
    var q := DoctorQuery("", map[key := v]);
    var field := if key == "specialty" then DoctorSpecialty else DoctorStatusName;
    forall d ensures q(d) == (Selects(v) ==> FieldIs(v, field)(d)) {
      DoctorChoiceHolds(d, key, v);
    }
    if Selects(v) {
      FilterAgree(ds, q, FieldIs(v, field));
    } else {
      FilterKeepsAll(ds, q);
    }
  }

  lemma DoctorChoiceHolds(d: Doctor, key: string, v: FilterValue)
    requires key == "specialty" || key == "status"
    ensures DoctorQuery("", map[key := v])(d) ==
            (Selects(v) ==> FieldIs(v, if key == "specialty" then DoctorSpecialty else DoctorStatusName)(d))
  {
    var f := map[key := v];
    assert MatchesSearch("", DoctorSearchFields(d));
    if key == "specialty" {
      assert !IsSet(f, "experience") && !Narrows(f, "status");
      assert FieldIs(v, DoctorSpecialty)(d) == (v == Text(DoctorSpecialty(d)));
    } else {
      assert !IsSet(f, "experience") && !Narrows(f, "specialty");
      assert FieldIs(v, DoctorStatusName)(d) == (v == Text(DoctorStatusName(d)));
    }
  }

  /** With no search and one status or type choice, the appointment list is
      every appointment, or exactly those with the chosen value, sorted by
      date. */
  lemma AppointmentChoice(appts: seq<Appointment>, key: string, v: FilterValue, order: SortOrder)
    requires key == "status" || key == "type"
    ensures !Selects(v) ==> (FilteredAppointments(appts, "", map[key := v], order) ==
              SortByDate(appts, AppointmentDate, order == Asc))
    ensures Selects(v) ==> (FilteredAppointments(appts, "", map[key := v], order) ==
              SortByDate(Filter(appts, FieldIs(v, if key == "status" then AppointmentStatusName else AppointmentTypeName)),
              AppointmentDate, order == Asc))
  {
    FilteredAppointmentsMeaning(appts, "", map[key := v], order);
    AppointmentChoiceFilter(appts, key, v);
  }

  lemma AppointmentChoiceFilter(appts: seq<Appointment>, key: string, v: FilterValue)
    requires key == "status" || key == "type"
    ensures Filter(appts, AppointmentQuery("", map[key := v])) ==
            if Selects(v)
            then Filter(appts, FieldIs(v, if key == "status" then AppointmentStatusName else AppointmentTypeName))
            else appts
  {
    var q := AppointmentQuery("", map[key := v]);
    var field := if key == "status" then AppointmentStatusName else AppointmentTypeName;
    forall a ensures q(a) == (Selects(v) ==> FieldIs(v, field)(a)) {
      AppointmentChoiceHolds(a, key, v);
    }
    if Selects(v) {
      FilterAgree(appts, q, FieldIs(v, field));
    } else {
      FilterKeepsAll(appts, q);
    }
  }

  lemma AppointmentChoiceHolds(a: Appointment, key: string, v: FilterValue)
    requires key == "status" || key == "type"
    ensures AppointmentQuery("", map[key := v])(a) ==
            (Selects(v) ==> FieldIs(v, if key == "status" then AppointmentStatusName else AppointmentTypeName)(a))
  {
    var f := map[key := v];
    assert MatchesSearch("", AppointmentSearchFields(a));
    if key == "status" {
      assert !IsSet(f, "date") && !IsSet(f, "doctor") && !Narrows(f, "type");
      assert FieldIs(v, AppointmentStatusName)(a) == (v == Text(AppointmentStatusName(a)));
    } else {
      assert !IsSet(f, "date") && !IsSet(f, "doctor") && !Narrows(f, "status");
      assert FieldIs(v, AppointmentTypeName)(a) == (v == Text(AppointmentTypeName(a)));
    }
  }

  /** Choosing a day in the date filter, with no search, lists exactly the
      appointments on that day, sorted by time. */
  lemma DateChoice(appts: seq<Appointment>, day: int, order: SortOrder)
    requires 0 <= day < 100000000
    requires forall i :: 0 <= i < |appts| ==> 0 <= appts[i].info.date < 100000000
    ensures FilteredAppointments(appts, "", map["date" := Text(DateText(day))], order) ==
            SortByDate(AppointmentsOn(appts, day), AppointmentDate, order == Asc)
  {
    var f := map["date" := Text(DateText(day))];
    FilteredAppointmentsMeaning(appts, "", f, order);
    var q := AppointmentQuery("", f);
    var on := (a: Appointment) => a.info.date == day;
    forall i | 0 <= i < |appts| ensures q(appts[i]) == on(appts[i]) {
      var a := appts[i];
      assert MatchesSearch("", AppointmentSearchFields(a));
      assert IsSet(f, "date") && !Narrows(f, "status") && !Narrows(f, "type") && !IsSet(f, "doctor");
      if DateText(a.info.date) == DateText(day) {
        DateTextInjective(a.info.date, day);
      }
    }
    FilterAgree(appts, q, on);
    WithKeyIsFilter(appts, AppointmentDate, day, on);
  }

  /** The read filter only narrows when it is ticked: `false` is falsy, so
      choosing "unread" shows every message, and `true` shows the read ones. */
  lemma ReadChoice(ms: seq<Message>, read: bool, order: SortOrder)
    ensures !read ==> (FilteredMessages(ms, "", map["read" := Flag(read)], order) ==
              SortByDate(ms, MessageTime, order == Asc))
    ensures read ==> (FilteredMessages(ms, "", map["read" := Flag(read)], order) ==
              SortByDate(Filter(ms, ReadIs(Flag(true))), MessageTime, order == Asc))
  {
    FilteredMessagesMeaning(ms, "", map["read" := Flag(read)], order);
    ReadChoiceFilter(ms, read);
  }

  lemma ReadChoiceFilter(ms: seq<Message>, read: bool)
    ensures Filter(ms, MessageQuery("", map["read" := Flag(read)])) ==
            if read then Filter(ms, ReadIs(Flag(true))) else ms
  {
    var q := MessageQuery("", map["read" := Flag(read)]);
    forall m ensures q(m) == (read ==> ReadIs(Flag(true))(m)) {
      ReadChoiceHolds(m, read);
    }
    if read {
      FilterAgree(ms, q, ReadIs(Flag(true)));
    } else {
      FilterKeepsAll(ms, q);
    }
  }

  lemma ReadChoiceHolds(m: Message, read: bool)
    ensures MessageQuery("", map["read" := Flag(read)])(m) == (read ==> ReadIs(Flag(true))(m))
  {
    var f := map["read" := Flag(read)];
    assert MatchesSearch("", MessageSearchFields(m));
    assert !Narrows(f, "priority") && !IsSet(f, "threadId");
    assert ReadIs(Flag(true))(m) == (Flag(true) == Flag(m.info.read));
  }

  /** With no filters the patient list is the search result alone, and with
      a blank search as well it is the whole collection. */
  lemma PatientSearchOnly(ps: seq<Patient>, term: string, order: SortOrder)
    ensures FilteredPatients(ps, term, map[], order) == FilterBySearch(ps, term, PatientSearchFields)
  {
    FilteredPatientsMeaning(ps, term, map[], order);
    TrimEmptyIffBlank(term);
    if IsBlank(term) {
      FilterKeepsAll(ps, PatientQuery(term, map[]));
    } else {
      FilterAgree(ps, PatientQuery(term, map[]), SearchMatch(term, PatientSearchFields));
    }
  }

  /** With no search and no filter every patient is listed, in stored
      order, and every appointment, sorted by date. */
  lemma NothingSelected(ps: seq<Patient>, appts: seq<Appointment>, order: SortOrder)
    ensures FilteredPatients(ps, "", map[], order) == ps
    ensures FilteredAppointments(appts, "", map[], order) == SortByDate(appts, AppointmentDate, order == Asc)
  {
    PatientSearchOnly(ps, "", order);
    FilteredAppointmentsMeaning(appts, "", map[], order);
    FilterKeepsAll(appts, AppointmentQuery("", map[]));
  }

  // ---------------------------------------------------------------------
  // Pagination

  function Min(a: int, b: int): int { if a <= b then a else b }

  /** `Math.ceil(count / itemsPerPage)`: the fewest pages that hold `count`
      items. */
  function TotalPages(count: nat, perPage: int): (r: nat)
    requires perPage >= 1
    ensures count <= r * perPage
    ensures r == 0 || (r - 1) * perPage < count
  {
    var q := (count + perPage - 1) / perPage;
    assert q * perPage + (count + perPage - 1) % perPage == count + perPage - 1;
    q
  }

  /** `paginatedItems`: `filtered.slice((page - 1) * n, page * n)`. */
  function Paginate<T>(items: seq<T>, page: int, perPage: int): (r: seq<T>)
    requires perPage >= 1
    ensures |r| <= perPage
    ensures page >= 1 ==>
              r == if (page - 1) * perPage < |items|
                   then items[(page - 1) * perPage .. Min(page * perPage, |items|)]
                   else []
  {
    assert page >= 1 ==> 0 <= (page - 1) * perPage <= page * perPage;
    JsSlice(items, (page - 1) * perPage, page * perPage)
  }

  /** Page 0 and every page after the last are empty. */
  lemma PageOutOfRange<T>(items: seq<T>, page: int, perPage: int)
    requires perPage >= 1
    requires page == 0 || page > TotalPages(|items|, perPage)
    ensures Paginate(items, page, perPage) == []
  {
    if page == 0 {
      assert SliceBound(page * perPage, |items|) == 0;
    } else {
      var t := TotalPages(|items|, perPage);
      MulMonotone(t, page - 1, perPage);
    }
  }

  lemma MulMonotone(a: int, b: int, n: nat)
    requires a <= b
    ensures a * n <= b * n
  {
    assert b * n - a * n == (b - a) * n;
  }

  /** JavaScript's negative slice indices count from the end: page -1 of
      fifteen items at ten per page is the first five items, not nothing. */
  lemma NegativePageQuirk<T>(items: seq<T>)
    requires |items| == 15
    ensures Paginate(items, -1, 10) == items[..5]
  {
  }

  /** Pages 1 to `k` laid end to end. */
  function FirstPages<T>(items: seq<T>, k: nat, perPage: int): seq<T>
    requires perPage >= 1
  {
    if k == 0 then [] else FirstPages(items, k - 1, perPage) + Paginate(items, k, perPage)
  }

  /** The first `k` pages are the first `k * perPage` items. */
  lemma {:induction false} FirstPagesArePrefix<T>(items: seq<T>, k: nat, perPage: int)
    requires perPage >= 1
    ensures FirstPages(items, k, perPage) == items[..Min(k * perPage, |items|)]
  {
    if k > 0 {
      FirstPagesArePrefix(items, k - 1, perPage);
      assert k * perPage == (k - 1) * perPage + perPage;
    }
  }

  /** The pages from 1 to `totalPages` hold every item once, in order. */
  lemma PagesCoverItems<T>(items: seq<T>, perPage: int)
    requires perPage >= 1
    ensures FirstPages(items, TotalPages(|items|, perPage), perPage) == items
  {
    FirstPagesArePrefix(items, TotalPages(|items|, perPage), perPage);
  }

  // ---------------------------------------------------------------------
  // Dashboard counts

  datatype Stats = Stats(
    totalPatients: nat,
    totalDoctors: nat,
    totalAppointments: nat,
    totalMessages: nat,
    activePatients: nat,
    availableDoctors: nat,
    todayAppointments: nat,
    unreadMessages: nat,
    highRiskPatients: nat,
    pendingAppointments: nat)

  predicate IsActive(p: Patient) { p.info.status == PatientStatus.Active }

  predicate IsPending(a: Appointment) { a.info.status == AppointmentStatus.Pending }

  /** `stats`, over the whole collections: search, filters and paging do
      not enter. `today` is the day key of the clock's date. */
  function ComputeStats(ps: seq<Patient>, ds: seq<Doctor>, appts: seq<Appointment>, ms: seq<Message>,
                        today: int): (s: Stats)
    ensures s.totalPatients == |ps| && s.totalDoctors == |ds|
    ensures s.totalAppointments == |appts| && s.totalMessages == |ms|
    ensures s.activePatients <= s.totalPatients && s.highRiskPatients <= s.totalPatients
    ensures s.availableDoctors <= s.totalDoctors
    ensures s.todayAppointments <= s.totalAppointments && s.pendingAppointments <= s.totalAppointments
    ensures s.unreadMessages <= s.totalMessages
    ensures s.unreadMessages == 0 <==> forall i :: 0 <= i < |ms| ==> ms[i].info.read
  {
    Stats(|ps|, |ds|, |appts|, |ms|,
          |Filter(ps, IsActive)|, |AvailableDoctors(ds)|, |AppointmentsOn(appts, today)|,
          UnreadCount(ms), |HighRiskPatients(ps)|, |Filter(appts, IsPending)|)
  }

  /** Adding a patient moves the patient counts by one and leaves the rest. */
  lemma StatsAfterAddPatient(ps: seq<Patient>, ds: seq<Doctor>, appts: seq<Appointment>, ms: seq<Message>,
                             today: int, p: Patient)
    ensures var s := ComputeStats(ps, ds, appts, ms, today);
            ComputeStats(ps + [p], ds, appts, ms, today) ==
              s.(totalPatients := s.totalPatients + 1,
                 activePatients := s.activePatients + (if IsActive(p) then 1 else 0),
                 highRiskPatients := s.highRiskPatients + (if IsHighRisk(p) then 1 else 0))
  {
    FilterAppend(ps, [p], IsActive);
    FilterAppend(ps, [p], IsHighRisk);
  }

  /** Adding a message moves the total, and the unread count when it is
      unread. */
  lemma StatsAfterAddMessage(ps: seq<Patient>, ds: seq<Doctor>, appts: seq<Appointment>, ms: seq<Message>,
                             today: int, m: Message)
    ensures var s := ComputeStats(ps, ds, appts, ms, today);
            ComputeStats(ps, ds, appts, ms + [m], today) ==
              s.(totalMessages := s.totalMessages + 1,
                 unreadMessages := s.unreadMessages + (if m.info.read then 0 else 1))
  {
    FilterAppend(ms, [m], IsUnread);
    assert Filter([m], IsUnread) == if m.info.read then [] else [m];
    assert UnreadCount(ms) == |Filter(ms, IsUnread)|;
    assert UnreadCount(ms + [m]) == |Filter(ms + [m], IsUnread)|;
  }

  /** The dashboard over the seed data on 18 January 2024. */
  lemma SeedStats()
    ensures var s := ComputeStats(Patients, Doctors, Appointments, Messages, 20240118);
            s.totalPatients == 8 && s.totalDoctors == 8 && s.totalAppointments == 10 &&
            s.totalMessages == 10 && s.availableDoctors == 5 && s.todayAppointments == 5 &&
            s.unreadMessages == 4 && s.highRiskPatients == 3 &&
            s.activePatients == 7 && s.pendingAppointments == 3
  {
    SeedAvailableDoctors();
    SeedAppointmentsOnJanuary18();
    SeedUnreadCount();
    SeedHighRiskPatients();
    SeedActivePatients();
    SeedPendingAppointments();
  }

  /** Every seed patient but the fourth is active. */
  lemma SeedActivePatients()
    ensures Filter(Patients, IsActive) == [Patient1, Patient2, Patient3, Patient5, Patient6, Patient7, Patient8]
  {
    ActivePositions();
    FilterIsPicked(Patients, IsActive, [0, 1, 2, 4, 5, 6, 7],
      [Patient1, Patient2, Patient3, Patient5, Patient6, Patient7, Patient8]);
  }

  lemma ActivePositions()
    ensures HoldsExactlyAt(Patients, IsActive, [0, 1, 2, 4, 5, 6, 7])
    ensures ElementsAt(Patients, [0, 1, 2, 4, 5, 6, 7],
      [Patient1, Patient2, Patient3, Patient5, Patient6, Patient7, Patient8])
  {
  }

  /** The pending seed appointments are 3, 7 and 10. */
  lemma SeedPendingAppointments()
    ensures Filter(Appointments, IsPending) == [Appointment3, Appointment7, Appointment10]
  {
    PendingPositions();
    FilterIsPicked(Appointments, IsPending, [2, 6, 9], [Appointment3, Appointment7, Appointment10]);
  }

  lemma PendingPositions()
    ensures HoldsExactlyAt(Appointments, IsPending, [2, 6, 9])
    ensures ElementsAt(Appointments, [2, 6, 9], [Appointment3, Appointment7, Appointment10])
  {
  }

  // ---------------------------------------------------------------------
  // Updates and deletions by id

  function IdIsNot<T>(id: T -> string, x: string): T -> bool {
    y => id(y) != x
  }

  /** `prev.filter(r => r.id !== id)`. */
  function RemoveById<T>(s: seq<T>, id: T -> string, x: string): (r: seq<T>)
    ensures forall i :: 0 <= i < |r| ==> r[i] in s && id(r[i]) != x
    ensures forall i :: 0 <= i < |s| ==> (s[i] in r <==> id(s[i]) != x)
  {
    Filter(s, IdIsNot(id, x))
  }

  /** Removing an id nobody carries changes nothing. */
  lemma RemoveUnknownId<T>(s: seq<T>, id: T -> string, x: string)
    requires forall i :: 0 <= i < |s| ==> id(s[i]) != x
    ensures RemoveById(s, id, x) == s
  {
    FilterKeepsAll(s, IdIsNot(id, x));
  }

  /** What a removal drops is exactly the records that carry the id. */
  lemma RemoveByIdCount<T>(s: seq<T>, id: T -> string, x: string)
    ensures |RemoveById(s, id, x)| + |WithKey(s, id, x)| == |s|
  {
    var carries := (y: T) => id(y) == x;
    WithKeyIsFilter(s, id, x, carries);
    FilterSplit(s, carries, IdIsNot(id, x));
  }

  /** Adding a record under a fresh id and then removing that id restores
      the collection. */
  lemma RemoveAfterAdd<T>(s: seq<T>, id: T -> string, y: T)
    requires forall i :: 0 <= i < |s| ==> id(s[i]) != id(y)
    ensures RemoveById(s + [y], id, id(y)) == s
  {
    FilterAppend(s, [y], IdIsNot(id, id(y)));
    RemoveUnknownId(s, id, id(y));
  }

  /** `prev.map(r => r.id === id ? { ...r, ...updates } : r)`. */
  function UpdateById<T, P>(s: seq<T>, id: T -> string, x: string, merge: (T, P) -> T, u: P): (r: seq<T>)
    ensures |r| == |s|
    ensures forall i :: 0 <= i < |s| ==> r[i] == (if id(s[i]) == x then merge(s[i], u) else s[i])
  {
    Map(s, y => if id(y) == x then merge(y, u) else y)
  }

  /** Updating an id nobody carries changes nothing. */
  lemma UpdateUnknownId<T, P>(s: seq<T>, id: T -> string, x: string, merge: (T, P) -> T, u: P)
    requires forall i :: 0 <= i < |s| ==> id(s[i]) != x
    ensures UpdateById(s, id, x, merge, u) == s
  {
  }

  /** An update that leaves `id` out keeps every record's id, so the same
      ids are there afterwards, in the same order. */
  lemma UpdatePatientKeepsIds(ps: seq<Patient>, x: string, u: PatientPatch)
    requires u.id.None?
    ensures Map(UpdateById(ps, PatientId, x, MergePatient, u), PatientId) == Map(ps, PatientId)
  {
  }

  /** After such an update, looking the patient up finds the first record
      with that id, merged with the patch. */
  lemma UpdatePatientThenFind(ps: seq<Patient>, x: string, u: PatientPatch)
    requires u.id.None?
    requires PatientById(ps, x).Some?
    ensures PatientById(UpdateById(ps, PatientId, x, MergePatient, u), x) ==
            Some(MergePatient(PatientById(ps, x).value, u))
  {
    var r := UpdateById(ps, PatientId, x, MergePatient, u);
    var i :| 0 <= i < |ps| && ps[i] == PatientById(ps, x).value && ps[i].id == x &&
             forall j :: 0 <= j < i ==> ps[j].id != x;
    FindAt(r, (p: Patient) => p.id == x, i);
  }

  /** After adding a patient under a fresh id, looking that id up finds it. */
  lemma AddPatientThenFind(ps: seq<Patient>, p: Patient)
    requires forall i :: 0 <= i < |ps| ==> ps[i].id != p.id
    ensures PatientById(ps + [p], p.id) == Some(p)
  {
    FindAt(ps + [p], (q: Patient) => q.id == p.id, |ps|);
  }

  /** `deleteMessage` as the source writes it: the test compares each
      message's id with itself, so it never holds. */
  function DeleteMessageAsWritten(ms: seq<Message>, x: string): (r: seq<Message>)
    ensures r == []
  {
    FilterNone(ms, IdDiffersFromItself);
    Filter(ms, IdDiffersFromItself)
  }

  /** `m => m.id !== m.id`. */
  predicate IdDiffersFromItself(m: Message) { m.id != m.id }

  /** Deleting message "1" from the seed messages empties the collection,
      where nine messages should remain. */
  lemma DeleteMessageAsWrittenLosesAll()
    ensures DeleteMessageAsWritten(Messages, "1") == []
    ensures |DeleteMessageIntended(Messages, "1")| == 9
  {
    SeedMessageIdsUnique();
    var carries := (m: Message) => m.id == "1";
    WithKeyIsPicked(Messages, MessageId, "1", carries, [0], [Message1]);
    RemoveByIdCount(Messages, MessageId, "1");
  }

  /** `deleteMessage` as the other three deletions are written. */
  function DeleteMessageIntended(ms: seq<Message>, x: string): (r: seq<Message>)
    ensures forall i :: 0 <= i < |r| ==> r[i] in ms && r[i].id != x
    ensures forall i :: 0 <= i < |ms| ==> (ms[i] in r <==> ms[i].id != x)
  {
    RemoveById(ms, MessageId, x)
  }

  // ---------------------------------------------------------------------
  // The store

  /** Every field of the store, as one value. */
  datatype StoreState = StoreState(
    patients: seq<Patient>,
    doctors: seq<Doctor>,
    appointments: seq<Appointment>,
    messages: seq<Message>,
    searchTerm: string,
    filters: Filters,
    sortBy: string,
    sortOrder: SortOrder,
    currentPage: int,
    itemsPerPage: int)

  /** The state on first use: the seed collections, nothing searched or
      selected, page 1 of 10. */
  const InitialState: StoreState :=
    StoreState(Patients, Doctors, Appointments, Messages, "", map[], "name", Asc, 1, 10)

  class Store {
    var patients: seq<Patient>
    var doctors: seq<Doctor>
    var appointments: seq<Appointment>
    var messages: seq<Message>
    var searchTerm: string
    var filters: Filters
    var sortBy: string
    var sortOrder: SortOrder
    var currentPage: int
    var itemsPerPage: int

    ghost function State(): StoreState
      reads this
    {
      StoreState(patients, doctors, appointments, messages, searchTerm, filters, sortBy, sortOrder,
                 currentPage, itemsPerPage)
    }

    /** A page holds at least one item. */
    ghost predicate Valid()
      reads this
    {
      itemsPerPage >= 1
    }

    constructor()
      ensures Valid() && State() == InitialState
    {
      patients, doctors, appointments, messages := Patients, Doctors, Appointments, Messages;
      searchTerm, filters, sortBy, sortOrder := "", map[], "name", Asc;
      currentPage, itemsPerPage := 1, 10;
    }

    function VisiblePatients(): seq<Patient>
      reads this
    {
      FilteredPatients(patients, searchTerm, filters, sortOrder)
    }

    function VisibleAppointments(): seq<Appointment>
      reads this
    {
      FilteredAppointments(appointments, searchTerm, filters, sortOrder)
    }

    /** `paginatedItems`: the current page of the patient list. */
    function PageItems(): (r: seq<Patient>)
      requires Valid()
      reads this
      ensures |r| <= itemsPerPage
    {
      Paginate(VisiblePatients(), currentPage, itemsPerPage)
    }

    method SetSearchTerm(term: string)
      requires Valid()
      modifies this
      ensures Valid() && State() == old(State()).(searchTerm := term)
    {
      searchTerm := term;
    }

    /** A new filter value sends the view back to page 1, which shows the
        head of the newly filtered list. */
    method SetFilter(key: string, value: FilterValue)
      requires Valid()
      modifies this
      ensures Valid() && State() == old(State()).(filters := old(filters)[key := value], currentPage := 1)
      ensures PageItems() == VisiblePatients()[..Min(itemsPerPage, |VisiblePatients()|)]
    {
      filters := filters[key := value];
      currentPage := 1;
    }

    /** Clearing drops the search and every filter and returns to page 1;
        every patient is listed again and every appointment, by date. */
    method ClearFilters()
      requires Valid()
      modifies this
      ensures Valid() && State() == old(State()).(filters := map[], searchTerm := "", currentPage := 1)
      ensures VisiblePatients() == patients
      ensures VisibleAppointments() == SortByDate(appointments, AppointmentDate, sortOrder == Asc)
    {
      filters, searchTerm, currentPage := map[], "", 1;
      assert State() == old(State()).(filters := map[], searchTerm := "", currentPage := 1);
      NothingSelected(patients, appointments, sortOrder);
    }

    method SetSortBy(field: string)
      requires Valid()
      modifies this
      ensures Valid() && State() == old(State()).(sortBy := field)
    {
      sortBy := field;
    }

    method SetSortOrder(order: SortOrder)
      requires Valid()
      modifies this
      ensures Valid() && State() == old(State()).(sortOrder := order)
    {
      sortOrder := order;
    }

    method SetCurrentPage(page: int)
      requires Valid()
      modifies this
      ensures Valid() && State() == old(State()).(currentPage := page)
    {
      currentPage := page;
    }

    method SetItemsPerPage(count: int)
      requires count >= 1
      modifies this
      ensures Valid() && State() == old(State()).(itemsPerPage := count)
    {
      itemsPerPage := count;
    }

    /** `addPatient`: the record is appended under `id`, the value the
        random generator produced; under a fresh id a lookup finds it. */
    method AddPatient(id: string, info: PatientInfo)
      requires Valid()
      modifies this
      ensures Valid() && State() == old(State()).(patients := old(patients) + [Patient(id, info)])
      ensures (forall i :: 0 <= i < |old(patients)| ==> old(patients)[i].id != id) ==>
                PatientById(patients, id) == Some(Patient(id, info))
    {
      if forall i :: 0 <= i < |patients| ==> patients[i].id != id {
        AddPatientThenFind(patients, Patient(id, info));
      }
      patients := patients + [Patient(id, info)];
    }

    method UpdatePatient(id: string, u: PatientPatch)
      requires Valid()
      modifies this
      ensures Valid() && State() == old(State()).(patients := UpdateById(old(patients), PatientId, id, MergePatient, u))
    {
      patients := UpdateById(patients, PatientId, id, MergePatient, u);
    }

    method DeletePatient(id: string)
      requires Valid()
      modifies this
      ensures Valid() && State() == old(State()).(patients := RemoveById(old(patients), PatientId, id))
      ensures PatientById(patients, id).None?
    {
      patients := RemoveById(patients, PatientId, id);
    }

    method AddDoctor(id: string, info: DoctorInfo)
      requires Valid()
      modifies this
      ensures Valid() && State() == old(State()).(doctors := old(doctors) + [Doctor(id, info)])
    {
      doctors := doctors + [Doctor(id, info)];
    }

    method UpdateDoctor(id: string, u: DoctorPatch)
      requires Valid()
      modifies this
      ensures Valid() && State() == old(State()).(doctors := UpdateById(old(doctors), DoctorId, id, MergeDoctor, u))
    {
      doctors := UpdateById(doctors, DoctorId, id, MergeDoctor, u);
    }

    method DeleteDoctor(id: string)
      requires Valid()
      modifies this
      ensures Valid() && State() == old(State()).(doctors := RemoveById(old(doctors), DoctorId, id))
      ensures DoctorById(doctors, id).None?
    {
      doctors := RemoveById(doctors, DoctorId, id);
    }

    method AddAppointment(id: string, info: AppointmentInfo)
      requires Valid()
      modifies this
      ensures Valid() && State() == old(State()).(appointments := old(appointments) + [Appointment(id, info)])
    {
      appointments := appointments + [Appointment(id, info)];
    }

    method UpdateAppointment(id: string, u: AppointmentPatch)
      requires Valid()
      modifies this
      ensures Valid() &&
              State() == old(State()).(appointments := UpdateById(old(appointments), AppointmentId, id, MergeAppointment, u))
    {
      appointments := UpdateById(appointments, AppointmentId, id, MergeAppointment, u);
    }

    method DeleteAppointment(id: string)
      requires Valid()
      modifies this
      ensures Valid() && State() == old(State()).(appointments := RemoveById(old(appointments), AppointmentId, id))
    {
      appointments := RemoveById(appointments, AppointmentId, id);
    }

    method AddMessage(id: string, info: MessageInfo)
      requires Valid()
      modifies this
      ensures Valid() && State() == old(State()).(messages := old(messages) + [Message(id, info)])
    {
      messages := messages + [Message(id, info)];
    }

    method UpdateMessage(id: string, u: MessagePatch)
      requires Valid()
      modifies this
      ensures Valid() && State() == old(State()).(messages := UpdateById(old(messages), MessageId, id, MergeMessage, u))
    {
      messages := UpdateById(messages, MessageId, id, MergeMessage, u);
    }

    /** `deleteMessage` as written: its test `m.id !== m.id` never holds, so
        every message is dropped, whatever `id` is. */
    method DeleteMessage(id: string)
      requires Valid()
      modifies this
      ensures Valid() && State() == old(State()).(messages := DeleteMessageAsWritten(old(messages), id))
      ensures messages == []
    {
      messages := DeleteMessageAsWritten(messages, id);
    }

    /** `deleteMessage` as evidently intended: only the messages carrying
        `id` are dropped. */
    method DeleteMessageCorrected(id: string)
      requires Valid()
      modifies this
      ensures Valid() && State() == old(State()).(messages := DeleteMessageIntended(old(messages), id))
      ensures forall i :: 0 <= i < |messages| ==> messages[i].id != id
    {
      messages := DeleteMessageIntended(messages, id);
    }
  }
}
