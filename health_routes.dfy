/** The health-tracking routes: adding a health record to one of the
    caller's mothers (a period record also moves the mother's last period
    date), the period tracker, and the PCOS and post-pregnancy views, which
    only answer for mothers in that condition. */
module HealthRoutes {
  import opened Common
  import opened Records
  import Helpers

  /** The JSON body of a new health record; None is a missing key. */
  datatype HealthRequest = HealthRequest(
    motherId: Option<string>,
    recordType: Option<string>,
    date: Option<DateInput>,
    notes: Option<string>,
    symptoms: Option<string>,
    medicationTaken: Option<bool>)

  const RequiredFields: seq<string> := ["record_type", "date"]

  /** `data.get(field)` is truthy. */
  predicate Given(req: HealthRequest, field: string) {
    match field
    case "record_type" => Truthy(req.recordType)
    case "date" => DateGiven(req.date)
    case _ => false
  }

  /** `create_health_record`: the mother id is checked first, then
      ownership, then the required fields in order, then the date. On success
      the record is inserted and, for a 'period' record, the mother's last
      period date becomes the record's date. */
  method CreateHealthRecord(db: Database, ashaId: string, req: HealthRequest, id: string)
    returns (reply: Reply<HealthRecord>)
    modifies db
    ensures db.ashas == old(db.ashas) && db.callLogs == old(db.callLogs)
    ensures db.appointments == old(db.appointments) && db.stocks == old(db.stocks)
    ensures !Truthy(req.motherId) ==> reply == Fail(400, "mother_id is required")
    ensures Truthy(req.motherId) && FindOwnedMother(old(db.mothers), req.motherId.value, ashaId).None? ==>
      reply == Fail(404, "Mother not found")
    ensures Truthy(req.motherId) && FindOwnedMother(old(db.mothers), req.motherId.value, ashaId).Some? ==>
      && (!Truthy(req.recordType) ==> reply == Fail(400, "record_type is required"))
      && (Truthy(req.recordType) && !DateGiven(req.date) ==> reply == Fail(400, "date is required"))
      && (Truthy(req.recordType) && DateGiven(req.date) && req.date.value.parsed.None? ==>
            reply == Fail(400, BadDateMessage))
    ensures reply.Fail? ==> db.mothers == old(db.mothers) && db.healthRecords == old(db.healthRecords)
    ensures reply.Ok? <==>
      && Truthy(req.motherId) && FindOwnedMother(old(db.mothers), req.motherId.value, ashaId).Some?
      && Truthy(req.recordType) && DateGiven(req.date) && req.date.value.parsed.Some?
    ensures reply.Ok? ==>
      && Truthy(req.motherId) && Truthy(req.recordType) && DateGiven(req.date) && req.date.value.parsed.Some?
      && FindOwnedMother(old(db.mothers), req.motherId.value, ashaId).Some?
      && var k := FindOwnedMother(old(db.mothers), req.motherId.value, ashaId).value;
      && var day := req.date.value.parsed.value;
      && reply.code == 201
      && reply.body == HealthRecord(id, req.motherId.value, req.recordType.value, day, req.notes,
                                    req.symptoms, req.medicationTaken.Some? && req.medicationTaken.value)
      && db.healthRecords == old(db.healthRecords) + [reply.body]
      && (req.recordType.value == "period" ==>
            db.mothers == old(db.mothers)[k := old(db.mothers)[k].(lastPeriodDate := Some(day))])
      && (req.recordType.value != "period" ==> db.mothers == old(db.mothers))
  {
    if !Truthy(req.motherId) {
      return Fail(400, "mother_id is required");
    }
    var motherId := req.motherId.value;
    var found := FindOwnedMother(db.mothers, motherId, ashaId);
    if found.None? {
      return Fail(404, "Mother not found");
    }
    assert Given(req, RequiredFields[0]) <==> Truthy(req.recordType);
    assert Given(req, RequiredFields[1]) <==> DateGiven(req.date);
    assert RequiredFields[0] + " is required" == "record_type is required";
    assert RequiredFields[1] + " is required" == "date is required";
    var i := 0;
    while i < |RequiredFields|
      invariant 0 <= i <= |RequiredFields|
      invariant forall j :: 0 <= j < i ==> Given(req, RequiredFields[j])
    {
      if !Given(req, RequiredFields[i]) {
        return Fail(400, RequiredFields[i] + " is required");
      }
      i := i + 1;
    }
    assert Given(req, RequiredFields[0]) && Given(req, RequiredFields[1]);
    if req.date.value.parsed.None? {
      return Fail(400, BadDateMessage);
    }
    var day := req.date.value.parsed.value;
    var record := HealthRecord(id, motherId, req.recordType.value, day, req.notes, req.symptoms,
                               req.medicationTaken.Some? && req.medicationTaken.value);
    db.healthRecords := db.healthRecords + [record];
    if req.recordType.value == "period" {
      var k := found.value;
      db.mothers := db.mothers[k := db.mothers[k].(lastPeriodDate := Some(day))];
    }
    reply := Ok(201, record);
  }

  // ---------------------------------------------------------------------------
  // Listings by record type, most recent first
  // ---------------------------------------------------------------------------

  /** Newest first: ascending by the negated date. */
  function NewestFirst(r: HealthRecord): int { -r.date }

  /** A mother's records of one type, most recent first
      (`filter_by(...).order_by(date.desc())`). */
  function OfTypeNewestFirst(records: seq<HealthRecord>, motherId: string, recordType: string): (r: seq<HealthRecord>)
    ensures multiset(r) == multiset(Filter(records, (h: HealthRecord) => h.motherId == motherId && h.recordType == recordType))
    ensures forall i :: 0 <= i < |r| ==> r[i].motherId == motherId && r[i].recordType == recordType
    ensures forall i, j :: 0 <= i < j < |r| ==> r[i].date >= r[j].date
  {
    var mine := Filter(records, (h: HealthRecord) => h.motherId == motherId && h.recordType == recordType);
    var sorted := SortBy(mine, NewestFirst);
    PermutationKeepsType(mine, sorted, motherId, recordType);
    sorted
  }

  /** A permutation of records of one mother and type holds only such records. */
  lemma PermutationKeepsType(mine: seq<HealthRecord>, sorted: seq<HealthRecord>, motherId: string, recordType: string)
    requires forall i :: 0 <= i < |mine| ==> mine[i].motherId == motherId && mine[i].recordType == recordType
    requires multiset(sorted) == multiset(mine)
    ensures forall i :: 0 <= i < |sorted| ==> sorted[i].motherId == motherId && sorted[i].recordType == recordType
  {
    forall i | 0 <= i < |sorted| ensures sorted[i].motherId == motherId && sorted[i].recordType == recordType {
      assert sorted[i] in multiset(mine);
      var j :| 0 <= j < |mine| && mine[j] == sorted[i];
    }
  }

  datatype Tracker = Tracker(
    lastPeriodDate: Option<int>,
    cycleLength: int,
    nextPeriodDate: Option<int>,
    periodRecords: seq<HealthRecord>)

  /** `get_period_tracker`: 404 unless the caller owns the mother; else the
      last date, the cycle, the predicted next date (only when there is a
      last date and a non-zero cycle) and at most twelve period records,
      most recent first. */
  function PeriodTracker(mothers: seq<MotherRow>, records: seq<HealthRecord>, ashaId: string, motherId: string)
    : (r: Reply<Tracker>)
    ensures FindOwnedMother(mothers, motherId, ashaId).None? <==> r == Fail(404, "Mother not found")
    ensures r.Ok? ==>
      && var m := mothers[FindOwnedMother(mothers, motherId, ashaId).value];
      && r.code == 200
      && r.body.lastPeriodDate == m.lastPeriodDate
      && r.body.cycleLength == m.cycleLength
      && (m.lastPeriodDate.Some? && m.cycleLength != 0 ==>
            r.body.nextPeriodDate == Some(m.lastPeriodDate.value + m.cycleLength))
      && (m.lastPeriodDate.None? || m.cycleLength == 0 ==> r.body.nextPeriodDate == None)
      && var all := OfTypeNewestFirst(records, motherId, "period");
      && |r.body.periodRecords| == (if |all| < 12 then |all| else 12)
      && r.body.periodRecords <= OfTypeNewestFirst(records, motherId, "period")
  {
    match FindOwnedMother(mothers, motherId, ashaId)
    case None => Fail(404, "Mother not found")
    case Some(k) =>
      var m := mothers[k];
      var next := if m.lastPeriodDate.Some? && m.cycleLength != 0
                  then Helpers.NextPeriodDate(m.lastPeriodDate, m.cycleLength) else None;
      Ok(200, Tracker(m.lastPeriodDate, m.cycleLength, next,
                      Take(OfTypeNewestFirst(records, motherId, "period"), 12)))
  }

  /** The twelve records the tracker returns are the most recent ones: none
      left out is newer than any returned. */
  lemma {:induction false} TrackerKeepsNewest(mothers: seq<MotherRow>, records: seq<HealthRecord>,
                                              ashaId: string, motherId: string)
    requires PeriodTracker(mothers, records, ashaId, motherId).Ok?
    ensures var shown := PeriodTracker(mothers, records, ashaId, motherId).body.periodRecords;
            var all := OfTypeNewestFirst(records, motherId, "period");
            forall i, j :: 0 <= i < |shown| && |shown| <= j < |all| ==> shown[i].date >= all[j].date
  {
    var shown := PeriodTracker(mothers, records, ashaId, motherId).body.periodRecords;
    var all := OfTypeNewestFirst(records, motherId, "period");
    forall i, j | 0 <= i < |shown| && |shown| <= j < |all| ensures shown[i].date >= all[j].date {
      assert shown[i] == all[i];
    }
  }

  /** With twelve period records or fewer, the tracker returns every one. */
  lemma FewRecordsAllShown(mothers: seq<MotherRow>, records: seq<HealthRecord>, ashaId: string, motherId: string)
    requires PeriodTracker(mothers, records, ashaId, motherId).Ok?
    requires |Filter(records, (h: HealthRecord) => h.motherId == motherId && h.recordType == "period")| <= 12
    ensures multiset(PeriodTracker(mothers, records, ashaId, motherId).body.periodRecords)
         == multiset(Filter(records, (h: HealthRecord) => h.motherId == motherId && h.recordType == "period"))
  {
    var all := OfTypeNewestFirst(records, motherId, "period");
    assert |all| == |multiset(all)|;
  }

  /** The tracker's prediction is the shared next-period helper's. */
  lemma TrackerUsesHelper(mothers: seq<MotherRow>, records: seq<HealthRecord>, ashaId: string, motherId: string)
    requires PeriodTracker(mothers, records, ashaId, motherId).Ok?
    ensures var m := mothers[FindOwnedMother(mothers, motherId, ashaId).value];
            m.cycleLength != 0 ==>
              PeriodTracker(mothers, records, ashaId, motherId).body.nextPeriodDate
              == Helpers.NextPeriodDate(m.lastPeriodDate, m.cycleLength)
  {
  }

  /** `get_pcos_info`: 404 unless owned, 400 unless the mother's status is
      'pcos'; otherwise her symptom records, most recent first. */
  function PcosInfo(mothers: seq<MotherRow>, records: seq<HealthRecord>, ashaId: string, motherId: string)
    : (r: Reply<seq<HealthRecord>>)
    ensures FindOwnedMother(mothers, motherId, ashaId).None? ==> r == Fail(404, "Mother not found")
    ensures FindOwnedMother(mothers, motherId, ashaId).Some? ==>
      var m := mothers[FindOwnedMother(mothers, motherId, ashaId).value];
      && (m.healthStatus != "pcos" <==> r == Fail(400, "Mother does not have PCOS status"))
      && (m.healthStatus == "pcos" ==> r == Ok(200, OfTypeNewestFirst(records, motherId, "symptom")))
  {
    match FindOwnedMother(mothers, motherId, ashaId)
    case None => Fail(404, "Mother not found")
    case Some(k) =>
      if mothers[k].healthStatus != "pcos" then Fail(400, "Mother does not have PCOS status")
      else Ok(200, OfTypeNewestFirst(records, motherId, "symptom"))
  }

  /** `get_post_pregnancy_info`: 404 unless owned, 400 unless the mother is
      post-pregnancy; otherwise her appointment records, most recent first. */
  function PostPregnancyInfo(mothers: seq<MotherRow>, records: seq<HealthRecord>, ashaId: string, motherId: string)
    : (r: Reply<seq<HealthRecord>>)
    ensures FindOwnedMother(mothers, motherId, ashaId).None? ==> r == Fail(404, "Mother not found")
    ensures FindOwnedMother(mothers, motherId, ashaId).Some? ==>
      var m := mothers[FindOwnedMother(mothers, motherId, ashaId).value];
      && (!m.postPregnancy <==> r == Fail(400, "Mother is not in post-pregnancy phase"))
      && (m.postPregnancy ==> r == Ok(200, OfTypeNewestFirst(records, motherId, "appointment")))
  {
    match FindOwnedMother(mothers, motherId, ashaId)
    case None => Fail(404, "Mother not found")
    case Some(k) =>
      if !mothers[k].postPregnancy then Fail(400, "Mother is not in post-pregnancy phase")
      else Ok(200, OfTypeNewestFirst(records, motherId, "appointment"))
  }
}
