/** The appointment routes: booking an appointment for one of the caller's
    mothers (which also becomes her next appointment date), changing the
    keys an update carries, the general list (by status and, optionally,
    from today on) and the list of the coming week's scheduled visits. */
module AppointmentsRoutes {
  import opened Common
  import opened Records

  /** The ids of the health worker's mothers. */
  function MotherIds(mothers: seq<MotherRow>, ashaId: string): (r: set<string>)
    ensures forall id :: id in r <==> exists i :: 0 <= i < |mothers| && mothers[i].id == id && mothers[i].ashaId == ashaId
  {
    set i | 0 <= i < |mothers| && mothers[i].ashaId == ashaId :: mothers[i].id
  }

  function ByDate(a: Appointment): int { a.appointmentDate }

  // ---------------------------------------------------------------------------
  // Listings
  // ---------------------------------------------------------------------------

  /** The filter of `get_appointments`: one of the caller's mothers, the
      exact status when a non-empty one is asked for, and from today on when
      `upcoming` is 'true'. */
  predicate Listed(a: Appointment, owned: set<string>, status: Option<string>, upcoming: Option<string>, today: int) {
    && a.motherId in owned
    && (Truthy(status) ==> a.status == status.value)
    && (upcoming == Some("true") ==> a.appointmentDate >= today)
  }

  /** `get_appointments`: the matching appointments, earliest first. */
  function GetAppointments(mothers: seq<MotherRow>, appointments: seq<Appointment>, ashaId: string,
                           status: Option<string>, upcoming: Option<string>, today: int): (r: seq<Appointment>)
    ensures multiset(r) == multiset(Filter(appointments, (a: Appointment) =>
      Listed(a, MotherIds(mothers, ashaId), status, upcoming, today)))
    ensures forall i, j :: 0 <= i < j < |r| ==> r[i].appointmentDate <= r[j].appointmentDate
  {
    var owned := MotherIds(mothers, ashaId);
    SortBy(Filter(appointments, (a: Appointment) => Listed(a, owned, status, upcoming, today)), ByDate)
  }

  /** The filter of `get_upcoming_appointments`: one of the caller's
      mothers, within the coming seven days, and still scheduled. */
  predicate InComingWeek(a: Appointment, owned: set<string>, today: int) {
    a.motherId in owned && today <= a.appointmentDate <= today + 7 && a.status == "scheduled"
  }

  /** `get_upcoming_appointments`: the coming week's visits, earliest first. */
  function UpcomingAppointments(mothers: seq<MotherRow>, appointments: seq<Appointment>, ashaId: string, today: int)
    : (r: seq<Appointment>)
    ensures multiset(r) == multiset(Filter(appointments, (a: Appointment) =>
      InComingWeek(a, MotherIds(mothers, ashaId), today)))
    ensures forall i, j :: 0 <= i < j < |r| ==> r[i].appointmentDate <= r[j].appointmentDate
  {
    var owned := MotherIds(mothers, ashaId);
    SortBy(Filter(appointments, (a: Appointment) => InComingWeek(a, owned, today)), ByDate)
  }

  /** Membership in a list whose multiset is that of a filter. */
  lemma InFilteredList(r: seq<Appointment>, appointments: seq<Appointment>, p: Appointment -> bool, a: Appointment)
    requires multiset(r) == multiset(Filter(appointments, p))
    ensures a in r <==> a in appointments && p(a)
  {
    var f := Filter(appointments, p);
    assert a in r <==> a in multiset(r);
    assert a in f <==> a in multiset(f);
    if a in f {
      var i :| 0 <= i < |f| && f[i] == a;
    }
    if a in appointments && p(a) {
      var i :| 0 <= i < |appointments| && appointments[i] == a;
    }
  }

  /** Exactly the caller's scheduled appointments of the coming week are
      listed as upcoming. */
  lemma UpcomingExactly(mothers: seq<MotherRow>, appointments: seq<Appointment>, ashaId: string, today: int,
                        a: Appointment)
    ensures a in UpcomingAppointments(mothers, appointments, ashaId, today) <==>
      && a in appointments
      && (exists i :: 0 <= i < |mothers| && mothers[i].id == a.motherId && mothers[i].ashaId == ashaId)
      && today <= a.appointmentDate <= today + 7
      && a.status == "scheduled"
  {
    var owned := MotherIds(mothers, ashaId);
    InFilteredList(UpcomingAppointments(mothers, appointments, ashaId, today), appointments,
                   (x: Appointment) => InComingWeek(x, owned, today), a);
  }

  /** Every upcoming appointment is also in the general list asked for
      status 'scheduled' from today on. */
  lemma UpcomingInGeneralList(mothers: seq<MotherRow>, appointments: seq<Appointment>, ashaId: string, today: int,
                              a: Appointment)
    requires a in UpcomingAppointments(mothers, appointments, ashaId, today)
    ensures a in GetAppointments(mothers, appointments, ashaId, Some("scheduled"), Some("true"), today)
  {
    var owned := MotherIds(mothers, ashaId);
    InFilteredList(UpcomingAppointments(mothers, appointments, ashaId, today), appointments,
                   (x: Appointment) => InComingWeek(x, owned, today), a);
    InFilteredList(GetAppointments(mothers, appointments, ashaId, Some("scheduled"), Some("true"), today),
                   appointments, (x: Appointment) => Listed(x, owned, Some("scheduled"), Some("true"), today), a);
  }

  // ---------------------------------------------------------------------------
  // Creating
  // ---------------------------------------------------------------------------

  /** The JSON body of a new appointment; None is a missing key. */
  datatype CreateRequest = CreateRequest(
    motherId: Option<string>,
    appointmentDate: Option<DateInput>,
    appointmentType: Option<string>,
    status: Option<string>,
    notes: Option<string>)

  const RequiredFields: seq<string> := ["mother_id", "appointment_date", "appointment_type"]

  predicate Given(req: CreateRequest, field: string) {
    match field
    case "mother_id" => Truthy(req.motherId)
    case "appointment_date" => DateGiven(req.appointmentDate)
    case "appointment_type" => Truthy(req.appointmentType)
    case _ => false
  }

  predicate Complete(req: CreateRequest) {
    Truthy(req.motherId) && DateGiven(req.appointmentDate) && Truthy(req.appointmentType)
  }

  /** `create_appointment`: the required fields in order, then ownership,
      then the date; on success the appointment is stored (status
      'scheduled' unless one is given) and the mother's next appointment
      date is overwritten with its date, earlier or later. */
  method CreateAppointment(db: Database, ashaId: string, req: CreateRequest, id: string)
    returns (reply: Reply<Appointment>)
    modifies db
    ensures db.ashas == old(db.ashas) && db.callLogs == old(db.callLogs)
    ensures db.healthRecords == old(db.healthRecords) && db.stocks == old(db.stocks)
    ensures !Truthy(req.motherId) ==> reply == Fail(400, "mother_id is required")
    ensures Truthy(req.motherId) && !DateGiven(req.appointmentDate) ==> reply == Fail(400, "appointment_date is required")
    ensures Truthy(req.motherId) && DateGiven(req.appointmentDate) && !Truthy(req.appointmentType) ==>
      reply == Fail(400, "appointment_type is required")
    ensures Complete(req) && FindOwnedMother(old(db.mothers), req.motherId.value, ashaId).None? ==>
      reply == Fail(404, "Mother not found")
    ensures (Complete(req) && FindOwnedMother(old(db.mothers), req.motherId.value, ashaId).Some? &&
             req.appointmentDate.value.parsed.None?) ==> reply == Fail(400, BadDateMessage)
    ensures reply.Fail? ==> db.mothers == old(db.mothers) && db.appointments == old(db.appointments)
    ensures reply.Ok? <==>
      Complete(req) && FindOwnedMother(old(db.mothers), req.motherId.value, ashaId).Some? &&
      req.appointmentDate.value.parsed.Some?
    ensures reply.Ok? ==>
      && Complete(req) && req.appointmentDate.value.parsed.Some?
      && FindOwnedMother(old(db.mothers), req.motherId.value, ashaId).Some?
      && var k := FindOwnedMother(old(db.mothers), req.motherId.value, ashaId).value;
      && var day := req.appointmentDate.value.parsed.value;
      && reply.code == 201
      && reply.body == Appointment(id, req.motherId.value, day, req.appointmentType.value,
                                   if req.status.Some? then req.status.value else "scheduled", false, req.notes)
      && db.appointments == old(db.appointments) + [reply.body]
      && db.mothers == old(db.mothers)[k := old(db.mothers)[k].(nextAppointmentDate := Some(day))]
  {
    assert Given(req, RequiredFields[0]) <==> Truthy(req.motherId);
    assert Given(req, RequiredFields[1]) <==> DateGiven(req.appointmentDate);
    assert Given(req, RequiredFields[2]) <==> Truthy(req.appointmentType);
    assert RequiredFields[0] + " is required" == "mother_id is required";
    assert RequiredFields[1] + " is required" == "appointment_date is required";
    assert RequiredFields[2] + " is required" == "appointment_type is required";
    var i := 0;
    while i < |RequiredFields|
      invariant 0 <= i <= |RequiredFields|
      invariant forall j :: 0 <= j < i ==> Given(req, RequiredFields[j])
    {
      if !Given(req, RequiredFields[i]) {
        return Fail(400, RequiredFields[i] + " is required");
      }
      i := i + 1;
    }
    var motherId := req.motherId.value;
    var found := FindOwnedMother(db.mothers, motherId, ashaId);
    if found.None? {
      return Fail(404, "Mother not found");
    }
    if req.appointmentDate.value.parsed.None? {
      return Fail(400, BadDateMessage);
    }
    var day := req.appointmentDate.value.parsed.value;
    var status := if req.status.Some? then req.status.value else "scheduled";
    var appointment := Appointment(id, motherId, day, req.appointmentType.value, status, false, req.notes);
    db.appointments := db.appointments + [appointment];
    var k := found.value;
    db.mothers := db.mothers[k := db.mothers[k].(nextAppointmentDate := Some(day))];
    reply := Ok(201, appointment);
  }

  // ---------------------------------------------------------------------------
  // Updating
  // ---------------------------------------------------------------------------

  /** The JSON body of an update; None is a key that is not there. */
  datatype UpdateRequest = UpdateRequest(
    appointmentDate: Option<DateInput>,
    appointmentType: Option<string>,
    status: Option<string>,
    reminderSent: Option<bool>,
    notes: Option<string>)

  /** `Appointment.query.get(id)`: the appointment with that key. */
  function FindAppointment(appointments: seq<Appointment>, id: string): (r: Option<nat>)
    ensures r.Some? ==> r.value < |appointments| && appointments[r.value].id == id
    ensures r.Some? ==> forall j :: 0 <= j < r.value ==> appointments[j].id != id
    ensures r.None? <==> forall j :: 0 <= j < |appointments| ==> appointments[j].id != id
  {
    if appointments == [] then None
    else if appointments[0].id == id then Some(0)
    else match FindAppointment(appointments[1..], id)
      case None => None
      case Some(k) => Some(k + 1)
  }

  /** A present date key must parse; even empty text is parsed. */
  predicate UpdateDateParses(req: UpdateRequest) {
    req.appointmentDate.Some? ==> req.appointmentDate.value.parsed.Some?
  }

  /** The appointment after an update: a present key replaces its field, an
      absent one leaves it; id and mother never change. */
  function ApplyUpdate(a: Appointment, req: UpdateRequest): (r: Appointment)
    requires UpdateDateParses(req)
    ensures r.id == a.id && r.motherId == a.motherId
    ensures req.appointmentDate.None? ==> r.appointmentDate == a.appointmentDate
    ensures req.appointmentDate.Some? ==> Some(r.appointmentDate) == req.appointmentDate.value.parsed
    ensures req.appointmentType.None? ==> r.appointmentType == a.appointmentType
    ensures req.appointmentType.Some? ==> r.appointmentType == req.appointmentType.value
    ensures req.status.None? ==> r.status == a.status
    ensures req.status.Some? ==> r.status == req.status.value
    ensures req.reminderSent.None? ==> r.reminderSent == a.reminderSent
    ensures req.reminderSent.Some? ==> r.reminderSent == req.reminderSent.value
    ensures req.notes.None? ==> r.notes == a.notes
    ensures req.notes.Some? ==> r.notes == req.notes
  {
    a.(appointmentDate := if req.appointmentDate.Some? then req.appointmentDate.value.parsed.value else a.appointmentDate,
       appointmentType := if req.appointmentType.Some? then req.appointmentType.value else a.appointmentType,
       status := if req.status.Some? then req.status.value else a.status,
       reminderSent := if req.reminderSent.Some? then req.reminderSent.value else a.reminderSent,
       notes := if req.notes.Some? then req.notes else a.notes)
  }

  /** An update with no keys leaves the appointment as it was. */
  lemma EmptyUpdateKeepsAppointment(a: Appointment)
    ensures ApplyUpdate(a, UpdateRequest(None, None, None, None, None)) == a
  {
  }

  /** `update_appointment`: 404 for an unknown appointment, 403 when its
      mother is not the caller's; otherwise the present keys are assigned one
      by one and committed. A date that does not parse raises before the
      commit: a server error, and nothing is stored. */
  method UpdateAppointment(db: Database, ashaId: string, appointmentId: string, req: UpdateRequest)
    returns (reply: Reply<Appointment>)
    modifies db
    ensures db.ashas == old(db.ashas) && db.mothers == old(db.mothers) && db.callLogs == old(db.callLogs)
    ensures db.healthRecords == old(db.healthRecords) && db.stocks == old(db.stocks)
    ensures FindAppointment(old(db.appointments), appointmentId).None? ==>
      reply == Fail(404, "Appointment not found") && db.appointments == old(db.appointments)
    ensures FindAppointment(old(db.appointments), appointmentId).Some? ==>
      var k := FindAppointment(old(db.appointments), appointmentId).value;
      var a := old(db.appointments)[k];
      && (FindOwnedMother(db.mothers, a.motherId, ashaId).None? ==>
            reply == Fail(403, "Unauthorized") && db.appointments == old(db.appointments))
      && (FindOwnedMother(db.mothers, a.motherId, ashaId).Some? && !UpdateDateParses(req) ==>
            reply == Fail(500, ServerError) && db.appointments == old(db.appointments))
      && (FindOwnedMother(db.mothers, a.motherId, ashaId).Some? && UpdateDateParses(req) ==>
            reply == Ok(200, ApplyUpdate(a, req)) && db.appointments == old(db.appointments)[k := ApplyUpdate(a, req)])
  {
    var found := FindAppointment(db.appointments, appointmentId);
    if found.None? {
      return Fail(404, "Appointment not found");
    }
    var k := found.value;
    var a := db.appointments[k];
    if FindOwnedMother(db.mothers, a.motherId, ashaId).None? {
      return Fail(403, "Unauthorized");
    }
    if req.appointmentDate.Some? {
      if req.appointmentDate.value.parsed.None? {
        return Fail(500, ServerError);
      }
      a := a.(appointmentDate := req.appointmentDate.value.parsed.value);
    }
    if req.appointmentType.Some? { a := a.(appointmentType := req.appointmentType.value); }
    if req.status.Some? { a := a.(status := req.status.value); }
    if req.reminderSent.Some? { a := a.(reminderSent := req.reminderSent.value); }
    if req.notes.Some? { a := a.(notes := req.notes); }
    db.appointments := db.appointments[k := a];
    reply := Ok(200, a);
  }
}
