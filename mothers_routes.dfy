/** The mother-record routes of the backend: listing a health worker's
    mothers (optionally by flag), creating a record after validating the
    request, updating exactly the fields a request carries, and placing a
    call to a mother, which is logged when the provider accepts it. */
module MothersRoutes {
  import opened Common
  import opened Records
  import IvrService

  // ---------------------------------------------------------------------------
  // Listing
  // ---------------------------------------------------------------------------

  /** Whether a mother passes the `flagged` query argument: 'true' keeps
      the flagged ones, 'false' the others, any other value (or none) all. */
  predicate FlagMatches(m: MotherRow, flagged: Option<string>) {
    (flagged == Some("true") ==> m.flagged) && (flagged == Some("false") ==> !m.flagged)
  }

  /** `get_mothers`: the health worker's mothers, filtered by the flag
      argument. */
  function GetMothers(mothers: seq<MotherRow>, ashaId: string, flagged: Option<string>): (r: seq<MotherRow>)
    ensures |r| <= |mothers|
    ensures forall i :: 0 <= i < |r| ==> r[i] in mothers && r[i].ashaId == ashaId
    ensures flagged == Some("true") ==> forall i :: 0 <= i < |r| ==> r[i].flagged
    ensures flagged == Some("false") ==> forall i :: 0 <= i < |r| ==> !r[i].flagged
    ensures forall i :: 0 <= i < |mothers| && mothers[i].ashaId == ashaId && FlagMatches(mothers[i], flagged) ==>
      mothers[i] in r
  {
    Filter(mothers, (m: MotherRow) => m.ashaId == ashaId && FlagMatches(m, flagged))
  }

  /** Any argument other than 'true' and 'false' lists all of the health
      worker's mothers. */
  lemma OtherFlagListsAll(mothers: seq<MotherRow>, ashaId: string, flagged: Option<string>, i: nat)
    requires flagged != Some("true") && flagged != Some("false")
    requires i < |mothers| && mothers[i].ashaId == ashaId
    ensures mothers[i] in GetMothers(mothers, ashaId, flagged)
  {
  }

  // ---------------------------------------------------------------------------
  // Creating
  // ---------------------------------------------------------------------------

  /** The JSON body of a create request; None is a missing key. */
  datatype CreateRequest = CreateRequest(
    name: Option<string>,
    age: Option<int>,
    phone: Option<string>,
    address: Option<string>,
    lastAncDate: Option<DateInput>,
    gestationWeeks: Option<int>,
    healthStatus: Option<string>,
    nextAppointmentDate: Option<DateInput>,
    lastPeriodDate: Option<DateInput>,
    cycleLength: Option<int>,
    postPregnancy: Option<bool>)

  const RequiredFields: seq<string> := ["name", "age", "phone", "address", "last_anc_date", "gestation_weeks"]

  /** `data.get(field)` is truthy: present, and not empty or zero. */
  predicate Given(req: CreateRequest, field: string) {
    match field
    case "name" => Truthy(req.name)
    case "age" => req.age.Some? && req.age.value != 0
    case "phone" => Truthy(req.phone)
    case "address" => Truthy(req.address)
    case "last_anc_date" => DateGiven(req.lastAncDate)
    case "gestation_weeks" => req.gestationWeeks.Some? && req.gestationWeeks.value != 0
    case _ => false
  }

  /** The index of the first required field the request lacks. */
  function FirstMissing(req: CreateRequest, fields: seq<string>): (r: Option<nat>)
    ensures r.Some? ==> r.value < |fields| && !Given(req, fields[r.value])
    ensures r.Some? ==> forall j :: 0 <= j < r.value ==> Given(req, fields[j])
    ensures r.None? <==> forall j :: 0 <= j < |fields| ==> Given(req, fields[j])
  {
    if fields == [] then None
    else if !Given(req, fields[0]) then Some(0)
    else match FirstMissing(req, fields[1..])
      case None => None
      case Some(k) => Some(k + 1)
  }

  /** Every required field is given. */
  predicate Complete(req: CreateRequest) {
    && Truthy(req.name) && req.age.Some? && req.age.value != 0 && Truthy(req.phone)
    && Truthy(req.address) && DateGiven(req.lastAncDate)
    && req.gestationWeeks.Some? && req.gestationWeeks.value != 0
  }

  /** The field loop lets a request through exactly when it is complete. */
  lemma NoneMissingIffComplete(req: CreateRequest)
    ensures FirstMissing(req, RequiredFields).None? <==> Complete(req)
  {
    if FirstMissing(req, RequiredFields).None? {
      assert Given(req, RequiredFields[0]) && Given(req, RequiredFields[1]) && Given(req, RequiredFields[2]);
      assert Given(req, RequiredFields[3]) && Given(req, RequiredFields[4]) && Given(req, RequiredFields[5]);
    }
    if Complete(req) {
      forall j | 0 <= j < |RequiredFields| ensures Given(req, RequiredFields[j]) {
      }
    }
  }

  /** A date field that is parsed only when given: absent or empty gives
      nothing; a given date that does not parse is an uncaught error. */
  function OptionalDate(d: Option<DateInput>): (r: Result3)
    ensures r.Absent? <==> !DateGiven(d)
    ensures r.Date? ==> DateGiven(d) && d.value.parsed == Some(r.day)
    ensures r.BadDate? <==> DateGiven(d) && d.value.parsed.None?
  {
    if !DateGiven(d) then Absent
    else match d.value.parsed
      case None => BadDate
      case Some(day) => Date(day)
  }

  datatype Result3 = Absent | Date(day: int) | BadDate

  function AsOption(r: Result3): Option<int> {
    if r.Date? then Some(r.day) else None
  }

  /** The record a valid create request makes, with the model's defaults:
      not flagged, not visited, no notes, medication reminders on, and the
      request's defaults for health status, cycle length and post-pregnancy. */
  function NewRow(req: CreateRequest, ashaId: string, id: string, lastAnc: int,
                  next: Option<int>, lastPeriod: Option<int>): (r: MotherRow)
    requires req.name.Some? && req.age.Some? && req.phone.Some? && req.address.Some? && req.gestationWeeks.Some?
    ensures r.id == id && r.ashaId == ashaId && r.lastAncDate == lastAnc
    ensures r.name == req.name.value && r.age == req.age.value && r.phone == req.phone.value
    ensures r.address == req.address.value && r.gestationWeeks == req.gestationWeeks.value
    ensures r.nextAppointmentDate == next && r.lastPeriodDate == lastPeriod
    ensures !r.flagged && !r.visited && r.notes == "" && r.medicationReminders
    ensures r.healthStatus == (if req.healthStatus.Some? then req.healthStatus.value else "normal")
    ensures r.cycleLength == (if req.cycleLength.Some? then req.cycleLength.value else 28)
    ensures r.postPregnancy == (req.postPregnancy.Some? && req.postPregnancy.value)
  {
    MotherRow(id, ashaId, req.name.value, req.age.value, req.phone.value, req.address.value,
              lastAnc, req.gestationWeeks.value, false, false, "",
              if req.healthStatus.Some? then req.healthStatus.value else "normal",
              next, true, lastPeriod,
              if req.cycleLength.Some? then req.cycleLength.value else 28,
              req.postPregnancy.Some? && req.postPregnancy.value)
  }

  /** `create_mother`: the required fields are checked in order, then the
      ANC date is parsed (400 when malformed); a malformed optional date is
      not caught and ends in a server error. Nothing is inserted unless the
      reply is 201. */
  method CreateMother(db: Database, ashaId: string, req: CreateRequest, id: string)
    returns (reply: Reply<MotherRow>)
    modifies db
    ensures db.ashas == old(db.ashas) && db.callLogs == old(db.callLogs) && db.healthRecords == old(db.healthRecords)
    ensures db.appointments == old(db.appointments) && db.stocks == old(db.stocks)
    ensures !Complete(req) ==>
      FirstMissing(req, RequiredFields).Some? &&
      reply == Fail(400, RequiredFields[FirstMissing(req, RequiredFields).value] + " is required")
    ensures Complete(req) && req.lastAncDate.value.parsed.None? ==> reply == Fail(400, BadDateMessage)
    ensures Complete(req) && req.lastAncDate.value.parsed.Some? &&
            (OptionalDate(req.nextAppointmentDate).BadDate? || OptionalDate(req.lastPeriodDate).BadDate?) ==>
      reply == Fail(500, ServerError)
    ensures reply.Ok? <==>
      (Complete(req) && req.lastAncDate.value.parsed.Some? &&
       !OptionalDate(req.nextAppointmentDate).BadDate? && !OptionalDate(req.lastPeriodDate).BadDate?)
    ensures reply.Ok? ==>
      && reply.code == 201
      && reply.body == NewRow(req, ashaId, id, req.lastAncDate.value.parsed.value,
                              AsOption(OptionalDate(req.nextAppointmentDate)),
                              AsOption(OptionalDate(req.lastPeriodDate)))
      && db.mothers == old(db.mothers) + [reply.body]
    ensures reply.Fail? ==> db.mothers == old(db.mothers)
  {
    var i := 0;
    while i < |RequiredFields|
      invariant 0 <= i <= |RequiredFields|
      invariant forall j :: 0 <= j < i ==> Given(req, RequiredFields[j])
    {
      if !Given(req, RequiredFields[i]) {
        return Fail(400, RequiredFields[i] + " is required");
      }
      i := i + 1;
    }
    NoneMissingIffComplete(req);
    var lastAnc := req.lastAncDate.value.parsed;
    if lastAnc.None? {
      return Fail(400, BadDateMessage);
    }
    var next := OptionalDate(req.nextAppointmentDate);
    var lastPeriod := OptionalDate(req.lastPeriodDate);
    if next.BadDate? || lastPeriod.BadDate? {
      return Fail(500, ServerError);
    }
    var row := NewRow(req, ashaId, id, lastAnc.value, AsOption(next), AsOption(lastPeriod));
    db.mothers := db.mothers + [row];
    reply := Ok(201, row);
  }

  /** An age of 0 counts as missing. */
  lemma ZeroCountsAsMissing(req: CreateRequest)
    requires Truthy(req.name) && req.age == Some(0)
    ensures FirstMissing(req, RequiredFields) == Some(1)
    ensures RequiredFields[FirstMissing(req, RequiredFields).value] == "age"
  {
    assert Given(req, RequiredFields[0]);
    assert !Given(req, RequiredFields[1]);
  }

  /** So does a gestation of 0 weeks, reported once the other five are given. */
  lemma ZeroWeeksCountsAsMissing(req: CreateRequest)
    requires Truthy(req.name) && req.age.Some? && req.age.value != 0 && Truthy(req.phone)
    requires Truthy(req.address) && DateGiven(req.lastAncDate)
    requires req.gestationWeeks == Some(0)
    ensures FirstMissing(req, RequiredFields) == Some(5)
    ensures RequiredFields[FirstMissing(req, RequiredFields).value] == "gestation_weeks"
  {
    assert Given(req, RequiredFields[0]) && Given(req, RequiredFields[1]) && Given(req, RequiredFields[2]);
    assert Given(req, RequiredFields[3]) && Given(req, RequiredFields[4]);
    assert !Given(req, RequiredFields[5]);
  }

  // ---------------------------------------------------------------------------
  // Updating
  // ---------------------------------------------------------------------------

  /** The JSON body of an update; None is a key that is not there. */
  datatype UpdateRequest = UpdateRequest(
    name: Option<string>,
    age: Option<int>,
    phone: Option<string>,
    address: Option<string>,
    lastAncDate: Option<DateInput>,
    gestationWeeks: Option<int>,
    flagged: Option<bool>,
    visited: Option<bool>,
    notes: Option<string>,
    healthStatus: Option<string>,
    nextAppointmentDate: Option<DateInput>,
    medicationReminders: Option<bool>,
    lastPeriodDate: Option<DateInput>,
    cycleLength: Option<int>,
    postPregnancy: Option<bool>)

  const EmptyUpdate := UpdateRequest(None, None, None, None, None, None, None, None, None, None,
                                     None, None, None, None, None)

  /** Whether every date in the request can be applied: a present ANC date
      must parse (even an empty one is parsed and fails), and a present,
      non-empty appointment or period date must parse. */
  predicate UpdateDatesParse(req: UpdateRequest) {
    && (req.lastAncDate.Some? ==> req.lastAncDate.value.parsed.Some?)
    && !OptionalDate(req.nextAppointmentDate).BadDate?
    && !OptionalDate(req.lastPeriodDate).BadDate?
  }

  /** The value a key sets, or the current one when the key is absent. */
  function Pick<T>(o: Option<T>, current: T): (r: T)
    ensures o.None? ==> r == current
    ensures o.Some? ==> r == o.value
  {
    if o.Some? then o.value else current
  }

  /** A present ANC date, parsed (the request's dates are known to parse). */
  function ParsedAnc(d: Option<DateInput>): (r: Option<int>)
    requires d.Some? ==> d.value.parsed.Some?
    ensures r.Some? <==> d.Some?
    ensures r.Some? ==> d.value.parsed == Some(r.value)
  {
    if d.Some? then d.value.parsed else None
  }

  /** A present appointment or period date: empty text clears the field. */
  function DateUpdate(d: Option<DateInput>): (r: Option<Option<int>>)
    requires !OptionalDate(d).BadDate?
    ensures r.Some? <==> d.Some?
    ensures r.Some? && d.value.raw == "" ==> r.value == None
    ensures r.Some? && d.value.raw != "" ==> r.value == d.value.parsed && r.value.Some?
  {
    if d.Some? then Some(AsOption(OptionalDate(d))) else None
  }

  /** The record after an update whose dates parse: each field takes the
      request's value when its key is present and keeps its value otherwise;
      id and owner never change. */
  function ApplyUpdate(m: MotherRow, req: UpdateRequest): (r: MotherRow)
    requires UpdateDatesParse(req)
    ensures r.id == m.id && r.ashaId == m.ashaId
    ensures r.name == Pick(req.name, m.name)
    ensures r.age == Pick(req.age, m.age)
    ensures r.phone == Pick(req.phone, m.phone)
    ensures r.address == Pick(req.address, m.address)
    ensures r.lastAncDate == Pick(ParsedAnc(req.lastAncDate), m.lastAncDate)
    ensures r.gestationWeeks == Pick(req.gestationWeeks, m.gestationWeeks)
    ensures r.flagged == Pick(req.flagged, m.flagged)
    ensures r.visited == Pick(req.visited, m.visited)
    ensures r.notes == Pick(req.notes, m.notes)
    ensures r.healthStatus == Pick(req.healthStatus, m.healthStatus)
    ensures r.nextAppointmentDate == Pick(DateUpdate(req.nextAppointmentDate), m.nextAppointmentDate)
    ensures r.medicationReminders == Pick(req.medicationReminders, m.medicationReminders)
    ensures r.lastPeriodDate == Pick(DateUpdate(req.lastPeriodDate), m.lastPeriodDate)
    ensures r.cycleLength == Pick(req.cycleLength, m.cycleLength)
    ensures r.postPregnancy == Pick(req.postPregnancy, m.postPregnancy)
  {
    m.(
      name := Pick(req.name, m.name),
      age := Pick(req.age, m.age),
      phone := Pick(req.phone, m.phone),
      address := Pick(req.address, m.address),
      lastAncDate := Pick(ParsedAnc(req.lastAncDate), m.lastAncDate),
      gestationWeeks := Pick(req.gestationWeeks, m.gestationWeeks),
      flagged := Pick(req.flagged, m.flagged),
      visited := Pick(req.visited, m.visited),
      notes := Pick(req.notes, m.notes),
      healthStatus := Pick(req.healthStatus, m.healthStatus),
      nextAppointmentDate := Pick(DateUpdate(req.nextAppointmentDate), m.nextAppointmentDate),
      medicationReminders := Pick(req.medicationReminders, m.medicationReminders),
      lastPeriodDate := Pick(DateUpdate(req.lastPeriodDate), m.lastPeriodDate),
      cycleLength := Pick(req.cycleLength, m.cycleLength),
      postPregnancy := Pick(req.postPregnancy, m.postPregnancy))
  }

  /** An update with no keys leaves the record as it was. */
  lemma EmptyUpdateKeepsRecord(m: MotherRow)
    ensures ApplyUpdate(m, EmptyUpdate) == m
  {
  }

  /** Sending the same update twice is the same as sending it once. */
  lemma UpdateIdempotent(m: MotherRow, req: UpdateRequest)
    requires UpdateDatesParse(req)
    ensures ApplyUpdate(ApplyUpdate(m, req), req) == ApplyUpdate(m, req)
  {
  }

  /** `update_mother`: 404 unless the caller owns the record; otherwise the
      present keys are written and committed. A date that does not parse
      raises before the commit, so the reply is a server error and nothing
      is stored; the field-by-field assignments before it touch only the
      uncommitted session, so they are modelled as one `ApplyUpdate`. */
  method UpdateMother(db: Database, ashaId: string, motherId: string, req: UpdateRequest)
    returns (reply: Reply<MotherRow>)
    modifies db
    ensures db.ashas == old(db.ashas) && db.callLogs == old(db.callLogs) && db.healthRecords == old(db.healthRecords)
    ensures db.appointments == old(db.appointments) && db.stocks == old(db.stocks)
    ensures FindOwnedMother(old(db.mothers), motherId, ashaId).None? ==>
      reply == Fail(404, "Mother not found") && db.mothers == old(db.mothers)
    ensures FindOwnedMother(old(db.mothers), motherId, ashaId).Some? && !UpdateDatesParse(req) ==>
      reply == Fail(500, ServerError) && db.mothers == old(db.mothers)
    ensures FindOwnedMother(old(db.mothers), motherId, ashaId).Some? && UpdateDatesParse(req) ==>
      var k := FindOwnedMother(old(db.mothers), motherId, ashaId).value;
      reply == Ok(200, ApplyUpdate(old(db.mothers)[k], req)) &&
      db.mothers == old(db.mothers)[k := ApplyUpdate(old(db.mothers)[k], req)]
  {
    var found := FindOwnedMother(db.mothers, motherId, ashaId);
    if found.None? {
      return Fail(404, "Mother not found");
    }
    var k := found.value;
    if req.lastAncDate.Some? && req.lastAncDate.value.parsed.None? {
      return Fail(500, ServerError);
    }
    if OptionalDate(req.nextAppointmentDate).BadDate? || OptionalDate(req.lastPeriodDate).BadDate? {
      return Fail(500, ServerError);
    }
    var m := ApplyUpdate(db.mothers[k], req);
    db.mothers := db.mothers[k := m];
    reply := Ok(200, m);
  }

  /** A record updated with `flagged: true` is listed under the flagged
      filter afterwards. */
  lemma FlagUpdateListsMother(mothers: seq<MotherRow>, k: nat, ashaId: string, req: UpdateRequest)
    requires k < |mothers| && mothers[k].ashaId == ashaId
    requires UpdateDatesParse(req) && req.flagged == Some(true)
    ensures ApplyUpdate(mothers[k], req) in GetMothers(mothers[k := ApplyUpdate(mothers[k], req)], ashaId, Some("true"))
  {
    var after := mothers[k := ApplyUpdate(mothers[k], req)];
    assert after[k] == ApplyUpdate(mothers[k], req);
  }

  // ---------------------------------------------------------------------------
  // Triggering a call
  // ---------------------------------------------------------------------------

  datatype TriggerBody = TriggerBody(callSid: string, provider: string)

  /** `trigger_call`: 404 unless the caller owns the record; when the
      provider accepts the call one 'initiated' log is added, otherwise the
      reply is 400 and nothing is logged. */
  method TriggerCall(db: Database, ashaId: string, motherId: string, settings: IvrService.Settings,
                     twilio: IvrService.TwilioAnswer, exotel: IvrService.ExotelAnswer, logId: string)
    returns (reply: Reply<TriggerBody>)
    modifies db
    ensures db.mothers == old(db.mothers) && db.ashas == old(db.ashas) && db.healthRecords == old(db.healthRecords)
    ensures db.appointments == old(db.appointments) && db.stocks == old(db.stocks)
    ensures FindOwnedMother(db.mothers, motherId, ashaId).None? ==>
      reply == Fail(404, "Mother not found") && db.callLogs == old(db.callLogs)
    ensures FindOwnedMother(db.mothers, motherId, ashaId).Some? ==>
      var attempt := IvrService.InitiateCall(settings, twilio, exotel);
      var mother := db.mothers[FindOwnedMother(db.mothers, motherId, ashaId).value];
      && (attempt.Started? ==>
            && db.callLogs == old(db.callLogs) + [CallLog(logId, ashaId, motherId, mother.phone, "initiated",
                                                          None, Some(attempt.callSid))]
            && reply == Ok(200, TriggerBody(attempt.callSid,
                                            if attempt.provider.Some? then attempt.provider.value else "twilio")))
      && (attempt.Failed? ==> reply.Fail? && reply.code == 400 && db.callLogs == old(db.callLogs))
  {
    var found := FindOwnedMother(db.mothers, motherId, ashaId);
    if found.None? {
      return Fail(404, "Mother not found");
    }
    var mother := db.mothers[found.value];
    var attempt := IvrService.InitiateCall(settings, twilio, exotel);
    if attempt.Started? {
      db.callLogs := db.callLogs + [CallLog(logId, ashaId, motherId, mother.phone, "initiated",
                                            None, Some(attempt.callSid))];
      var provider := if attempt.provider.Some? then attempt.provider.value else "twilio";
      reply := Ok(200, TriggerBody(attempt.callSid, provider));
    } else {
      reply := Fail(400, "call not started");
    }
  }
}
