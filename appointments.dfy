/** The appointments page (`src/pages/Appointments.tsx`): the listed
    appointments grouped by date, today's group and the upcoming ones, the
    revenue and visit-type counts of today's group, and the status badge.
    The page groups whatever list the store's appointment pipeline gives
    it; `today` is the `YYYYMMDD` key of the current date. */
module AppointmentDays {
  import opened Seqs
  import opened Records
  import opened Utils
  import opened Data

  // ---------------------------------------------------------------------
  // Grouping by date

  /** `appointmentsByDate`: the reduce that pushes each appointment onto the
      array of its date, creating the array on first sight. This is the
      accumulation `groupBy` performs, keyed by date; `dates` lists the
      record's keys in the order they were created. */
  method AppointmentsByDate(appts: seq<Appointment>) returns (groups: map<int, seq<Appointment>>, dates: seq<int>)
    ensures dates == Distinct(Map(appts, AppointmentDate))
    ensures forall d :: d in groups <==> d in dates
    ensures forall d :: d in groups ==> groups[d] == AppointmentsOn(appts, d)
  {
    groups, dates := GroupBy(appts, AppointmentDate);
  }

  /** What `AppointmentsByDate` returns, as a predicate the lemmas below
      take as their hypothesis. */
  ghost predicate GroupedByDate(appts: seq<Appointment>, groups: map<int, seq<Appointment>>, dates: seq<int>) {
    dates == Distinct(Map(appts, AppointmentDate)) &&
    (forall d :: d in groups <==> d in dates) &&
    (forall d :: d in groups ==> groups[d] == AppointmentsOn(appts, d))
  }

  // ---------------------------------------------------------------------
  // Today and upcoming

  /** `appointmentsByDate[today] || []`: a group that exists is an array,
      and an array is truthy even when empty. */
  function TodayGroup(groups: map<int, seq<Appointment>>, today: int): seq<Appointment> {
    if today in groups then groups[today] else []
  }

  /** Today's list is `getAppointmentsByDate(today)` over the listed
      appointments, empty when no appointment falls today. */
  lemma TodayIsThatDate(appts: seq<Appointment>, groups: map<int, seq<Appointment>>, dates: seq<int>, today: int)
    requires GroupedByDate(appts, groups, dates)
    ensures TodayGroup(groups, today) == AppointmentsOn(appts, today)
  {
    if today !in groups {
      WithKeyAbsent(appts, AppointmentDate, today);
    }
  }

  /** The groups of `dates`, laid end to end: `flatMap(([, apps]) => apps)`. */
  function Flatten(groups: map<int, seq<Appointment>>, dates: seq<int>): seq<Appointment>
    requires forall i :: 0 <= i < |dates| ==> dates[i] in groups
  {
    if dates == [] then []
    else Flatten(groups, dates[..|dates| - 1]) + groups[dates[|dates| - 1]]
  }

  function Later(today: int): int -> bool {
    (d: int) => d > today
  }

  /** `upcomingAppointments`: `Object.entries` lists the date keys in the
      order they were created (a `YYYY-MM-DD` key is never an array index),
      the dates after today are kept, and their groups are concatenated. */
  function Upcoming(groups: map<int, seq<Appointment>>, dates: seq<int>, today: int): seq<Appointment>
    requires forall d :: d in dates ==> d in groups
  {
    Flatten(groups, Filter(dates, Later(today)))
  }

  /** Concatenating the groups is `Regroup` over the same dates. */
  lemma {:induction false} FlattenIsRegroup(appts: seq<Appointment>, groups: map<int, seq<Appointment>>, ks: seq<int>)
    requires forall i :: 0 <= i < |ks| ==> ks[i] in groups && groups[ks[i]] == AppointmentsOn(appts, ks[i])
    ensures Flatten(groups, ks) == Regroup(ks, appts, AppointmentDate)
  {
    if ks != [] {
      FlattenIsRegroup(appts, groups, ks[..|ks| - 1]);
    }
  }

  /** The upcoming list holds exactly the appointments dated after today,
      each once: grouped by date in order of first appearance, and in list
      order within a date. */
  lemma UpcomingIsLater(appts: seq<Appointment>, groups: map<int, seq<Appointment>>, dates: seq<int>, today: int)
    requires GroupedByDate(appts, groups, dates)
    ensures Upcoming(groups, dates, today) == Regroup(Filter(dates, Later(today)), appts, AppointmentDate)
    ensures multiset(Upcoming(groups, dates, today)) ==
            multiset(Filter(appts, (a: Appointment) => a.info.date > today))
  {
    var ks := Filter(dates, Later(today));
    FlattenIsRegroup(appts, groups, ks);
    LaterRegroupPermutes(appts, dates, today);
  }

  /** Regrouping the dates after today permutes the appointments dated
      after today. */
  lemma LaterRegroupPermutes(appts: seq<Appointment>, dates: seq<int>, today: int)
    requires dates == Distinct(Map(appts, AppointmentDate))
    ensures multiset(Regroup(Filter(dates, Later(today)), appts, AppointmentDate)) ==
            multiset(Filter(appts, (a: Appointment) => a.info.date > today))
  {
    var ks := Filter(dates, Later(today));
    FilterKeepsNoDuplicates(dates, Later(today));
    LaterDates(appts, dates, today);
    RegroupSelected(ks, appts, AppointmentDate, (a: Appointment) => a.info.date > today);
  }

  /** An appointment's date is among the later dates exactly when it lies
      after today. */
  lemma LaterDates(appts: seq<Appointment>, dates: seq<int>, today: int)
    requires dates == Distinct(Map(appts, AppointmentDate))
    ensures forall i :: 0 <= i < |appts| ==>
              (AppointmentDate(appts[i]) in Filter(dates, Later(today))) == (appts[i].info.date > today)
  {
    var ks := Filter(dates, Later(today));
    forall i | 0 <= i < |appts|
      ensures (AppointmentDate(appts[i]) in ks) == (appts[i].info.date > today)
    {
      assert Map(appts, AppointmentDate)[i] == appts[i].info.date;
      assert appts[i].info.date in dates;
      var j :| 0 <= j < |dates| && dates[j] == appts[i].info.date;
      assert dates[j] in ks <==> Later(today)(dates[j]);
    }
  }

  /** No appointment is both today's and upcoming. */
  lemma TodayAndUpcomingDisjoint(appts: seq<Appointment>, groups: map<int, seq<Appointment>>, dates: seq<int>, today: int)
    requires GroupedByDate(appts, groups, dates)
    ensures var t, u := TodayGroup(groups, today), Upcoming(groups, dates, today);
            forall i, j :: 0 <= i < |t| && 0 <= j < |u| ==> t[i] != u[j]
  {
    var t, u := TodayGroup(groups, today), Upcoming(groups, dates, today);
    TodayIsThatDate(appts, groups, dates, today);
    UpcomingIsLater(appts, groups, dates, today);
    var later := Filter(appts, (a: Appointment) => a.info.date > today);
    forall j | 0 <= j < |u| ensures u[j].info.date > today {
      assert u[j] in multiset(later);
    }
  }

  // ---------------------------------------------------------------------
  // Today's figures

  /** `reduce((sum, a) => sum + a.cost, 0)`. */
  function Revenue(s: seq<Appointment>): (r: int)
    ensures (forall i :: 0 <= i < |s| ==> s[i].info.cost >= 0) ==> r >= 0
  {
    if s == [] then 0 else Revenue(s[..|s| - 1]) + s[|s| - 1].info.cost
  }

  /** The sum over two lists laid end to end is the sum of the two sums. */
  lemma {:induction false} RevenueAppend(a: seq<Appointment>, b: seq<Appointment>)
    ensures Revenue(a + b) == Revenue(a) + Revenue(b)
  {
    if b != [] {
      var init, last := b[..|b| - 1], b[|b| - 1];
      assert (a + b)[..|a + b| - 1] == a + init;
      assert (a + b)[|a + b| - 1] == last;
      RevenueAppend(a, init);
      assert Revenue(b) == Revenue(init) + last.info.cost;
    } else {
      assert a + b == a;
    }
  }

  function KindIs(kind: AppointmentType): Appointment -> bool {
    (a: Appointment) => a.info.kind == kind
  }

  /** `filter(a => a.type === kind).length`. */
  function CountKind(s: seq<Appointment>, kind: AppointmentType): (n: nat)
    ensures n <= |s|
    ensures n == 0 <==> forall i :: 0 <= i < |s| ==> s[i].info.kind != kind
  {
    var r := Filter(s, KindIs(kind));
    assert r != [] ==> r[0] in s && KindIs(kind)(r[0]);
    |r|
  }

  /** The video and in-person counts together never exceed the day's
      appointments: no appointment is of both types. */
  lemma VideoAndClinicWithinDay(s: seq<Appointment>)
    ensures CountKind(s, AppointmentType.Video) + CountKind(s, AppointmentType.Clinic) <= |s|
  {
    FilterDisjointCounts(s, KindIs(AppointmentType.Video), KindIs(AppointmentType.Clinic));
  }

  /** The figures the page shows for `today`: today's list, the upcoming
      list, today's revenue and its video and in-person counts. */
  method DayOverview(appts: seq<Appointment>, today: int)
    returns (todays: seq<Appointment>, upcoming: seq<Appointment>, revenue: int, video: nat, clinic: nat)
    ensures todays == AppointmentsOn(appts, today)
    ensures upcoming == Regroup(Filter(Distinct(Map(appts, AppointmentDate)), Later(today)), appts, AppointmentDate)
    ensures multiset(upcoming) == multiset(Filter(appts, (a: Appointment) => a.info.date > today))
    ensures revenue == Revenue(AppointmentsOn(appts, today))
    ensures video == CountKind(todays, AppointmentType.Video)
    ensures clinic == CountKind(todays, AppointmentType.Clinic)
    ensures video + clinic <= |todays|
  {
    var groups, dates := AppointmentsByDate(appts);
    todays := TodayGroup(groups, today);
    upcoming := Upcoming(groups, dates, today);
    TodayIsThatDate(appts, groups, dates, today);
    UpcomingIsLater(appts, groups, dates, today);
    revenue := Revenue(todays);
    video := CountKind(todays, AppointmentType.Video);
    clinic := CountKind(todays, AppointmentType.Clinic);
    VideoAndClinicWithinDay(todays);
  }

  /** On 18 January 2024 the seed day brings in $900, with no video and no
      in-person visit among its five appointments. */
  lemma SeedDayFigures()
    ensures Revenue(AppointmentsOn(Appointments, 20240118)) == 900
    ensures CountKind(AppointmentsOn(Appointments, 20240118), AppointmentType.Video) == 0
    ensures CountKind(AppointmentsOn(Appointments, 20240118), AppointmentType.Clinic) == 0
  {
    SeedAppointmentsOnJanuary18();
    SeedDayList();
  }

  /** The figures of the five appointments of 18 January 2024. */
  lemma SeedDayList()
    ensures var day := [Appointment1, Appointment2, Appointment3, Appointment4, Appointment5];
            Revenue(day) == 900 &&
            CountKind(day, AppointmentType.Video) == 0 && CountKind(day, AppointmentType.Clinic) == 0
  {
    RevenueOfFive(Appointment1, Appointment2, Appointment3, Appointment4, Appointment5);
  }

  lemma RevenueOfFive(a: Appointment, b: Appointment, c: Appointment, d: Appointment, e: Appointment)
    ensures Revenue([a, b, c, d, e]) == a.info.cost + b.info.cost + c.info.cost + d.info.cost + e.info.cost
  {
    RevenueAppend([a, b], [c, d, e]);
    assert [a, b] + [c, d, e] == [a, b, c, d, e];
    RevenueAppend([a], [b]);
    assert [a] + [b] == [a, b];
    RevenueAppend([c], [d, e]);
    assert [c] + [d, e] == [c, d, e];
    RevenueAppend([d], [e]);
    assert [d] + [e] == [d, e];
    RevenueSingle(a);
    RevenueSingle(b);
    RevenueSingle(c);
    RevenueSingle(d);
    RevenueSingle(e);
  }

  lemma RevenueSingle(x: Appointment)
    ensures Revenue([x]) == x.info.cost
  {
    assert [x][..0] == [];
  }

  // ---------------------------------------------------------------------
  // Status badge

  datatype BadgeVariant = Default | Secondary | Destructive | Outline

  /** `getStatusBadgeVariant`: a cancelled appointment is marked
      destructive, a pending one secondary, a rescheduled one outlined, and
      every other status, known or not, gets the default badge. */
  function StatusBadgeVariant(status: string): (v: BadgeVariant)
    ensures v == Destructive <==> status == "cancelled"
    ensures v == Secondary <==> status == "pending"
    ensures v == Outline <==> status == "rescheduled"
  {
    if status == "confirmed" then Default
    else if status == "pending" then Secondary
    else if status == "cancelled" then Destructive
    else if status == "completed" then Default
    else if status == "rescheduled" then Outline
    else Default
  }

  /** Over the statuses an appointment can have, the default badge marks
      exactly the confirmed and the completed ones. */
  lemma DefaultBadgeStatuses(s: AppointmentStatus)
    ensures StatusBadgeVariant(s.Name()) == Default <==> s == AppointmentStatus.Confirmed || s == AppointmentStatus.Completed
  {
  }
}
