/** The stored entities of the backend, as plain records, and the in-memory
    tables that stand for the database session. The frontend's API types carry
    the same fields, so the list components reuse these shapes. Dates are day
    numbers; primary keys are strings supplied by the caller. */
module Records {
  import opened Common

  datatype Asha = Asha(
    id: string,
    ashaId: string,
    password: string,
    name: string,
    phcName: string,
    phone: Option<string>,
    email: Option<string>)

  datatype MotherRow = MotherRow(
    id: string,
    ashaId: string,
    name: string,
    age: int,
    phone: string,
    address: string,
    lastAncDate: int,
    gestationWeeks: int,
    flagged: bool,
    visited: bool,
    notes: string,
    healthStatus: string,
    nextAppointmentDate: Option<int>,
    medicationReminders: bool,
    lastPeriodDate: Option<int>,
    cycleLength: int,
    postPregnancy: bool)

  datatype CallLog = CallLog(
    id: string,
    ashaId: string,
    motherId: string,
    phone: string,
    result: string,
    callDuration: Option<int>,
    callSid: Option<string>)

  datatype HealthRecord = HealthRecord(
    id: string,
    motherId: string,
    recordType: string,
    date: int,
    notes: Option<string>,
    symptoms: Option<string>,
    medicationTaken: bool)

  datatype Appointment = Appointment(
    id: string,
    motherId: string,
    appointmentDate: int,
    appointmentType: string,
    status: string,
    reminderSent: bool,
    notes: Option<string>)

  datatype PhcStock = PhcStock(
    id: string,
    ashaId: string,
    ironTablets: int,
    ttVaccine: int,
    folicAcid: int,
    calciumTablets: int)

  /** A date field of a request: the text as sent, and what parsing it as
      YYYY-MM-DD gives (None when it does not parse; empty text never does). */
  datatype DateText = DateText(raw: string, parsed: Option<int>)
  type DateInput = d: DateText | d.raw == "" ==> d.parsed.None? witness DateText("", None)

  /** Python truthiness of an optional text field: present and non-empty. */
  predicate Truthy(s: Option<string>) {
    s.Some? && s.value != ""
  }

  /** The same for a date field. */
  predicate DateGiven(d: Option<DateInput>) {
    d.Some? && d.value.raw != ""
  }

  const BadDateMessage := "Invalid date format. Use YYYY-MM-DD"

  /** An HTTP reply: a status code with a body, or with an error message. */
  datatype Reply<T> = Ok(code: int, body: T) | Fail(code: int, error: string)

  const ServerError := "Internal Server Error"

  /** The tables, in insertion order. */
  class Database {
    var ashas: seq<Asha>
    var mothers: seq<MotherRow>
    var callLogs: seq<CallLog>
    var healthRecords: seq<HealthRecord>
    var appointments: seq<Appointment>
    var stocks: seq<PhcStock>

    constructor ()
      ensures ashas == [] && mothers == [] && callLogs == []
      ensures healthRecords == [] && appointments == [] && stocks == []
    {
      ashas, mothers, callLogs := [], [], [];
      healthRecords, appointments, stocks := [], [], [];
    }
  }

  /** `Mother.query.filter_by(id=..., asha_id=...).first()`: the first row with
      that id belonging to that health worker. */
  function FindOwnedMother(mothers: seq<MotherRow>, id: string, ashaId: string): (r: Option<nat>)
    ensures r.Some? ==> r.value < |mothers| && mothers[r.value].id == id && mothers[r.value].ashaId == ashaId
    ensures r.Some? ==> forall j :: 0 <= j < r.value ==> !(mothers[j].id == id && mothers[j].ashaId == ashaId)
    ensures r.None? <==> forall j :: 0 <= j < |mothers| ==> !(mothers[j].id == id && mothers[j].ashaId == ashaId)
  {
    if mothers == [] then None
    else if mothers[0].id == id && mothers[0].ashaId == ashaId then Some(0)
    else match FindOwnedMother(mothers[1..], id, ashaId)
      case None => None
      case Some(k) => Some(k + 1)
  }
}
