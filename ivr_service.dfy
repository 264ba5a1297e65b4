/** The voice-call service: what a key press during a call does (flag the
    mother, log the answer), the table that turns a response kind into a
    call result, and the choice of telephony provider when a call is placed.
    The spoken text and the provider HTTP calls are not modelled; what the
    providers answer is passed in. */
module IvrService {
  import opened Common
  import opened Records

  /** `result_map.get(response_type, 'answered')`. */
  function ResultFor(responseType: string): (r: string)
    ensures responseType == "needs_help" ==> r == "pressed_2"
    ensures responseType != "needs_help" ==> r == "answered"
  {
    if responseType == "medication_confirmed" then "answered"
    else if responseType == "needs_help" then "pressed_2"
    else if responseType == "appointment_confirmed" then "answered"
    else "answered"
  }

  /** The row `_log_response` adds: it copies the mother's health worker,
      id and phone. */
  function ResponseLog(logId: string, mother: MotherRow, responseType: string,
                       callSid: Option<string>): (r: CallLog)
    ensures r.ashaId == mother.ashaId && r.motherId == mother.id && r.phone == mother.phone
    ensures r.result == ResultFor(responseType) && r.callSid == callSid && r.callDuration.None?
  {
    CallLog(logId, mother.ashaId, mother.id, mother.phone, ResultFor(responseType), None, callSid)
  }

  /** Which message the caller hears after a key press. */
  datatype Spoken = ThankYou | HelpComing | NextAppointment(date: int) | NoAppointment | InvalidOption

  /** The response kind each key stands for; other input has none. */
  function ResponseTypeFor(digits: string): (r: Option<string>)
    ensures r.Some? <==> digits in {"1", "2", "3"}
  {
    if digits == "1" then Some("medication_confirmed")
    else if digits == "2" then Some("needs_help")
    else if digits == "3" then Some("appointment_confirmed")
    else None
  }

  /** The message for a key, for a mother with that next appointment. */
  function SpokenFor(digits: string, nextAppointment: Option<int>): Spoken {
    if digits == "1" then ThankYou
    else if digits == "2" then HelpComing
    else if digits == "3" then (if nextAppointment.Some? then NextAppointment(nextAppointment.value) else NoAppointment)
    else InvalidOption
  }

  /** `handle_user_input` for the mother at index `k`: key 2 flags her; keys
      1, 2 and 3 each log one result (answered, pressed_2, answered); any
      other input changes nothing. */
  method HandleUserInput(db: Database, k: nat, callSid: Option<string>, digits: string, logId: string)
    returns (said: Spoken)
    requires k < |db.mothers|
    modifies db
    ensures said == SpokenFor(digits, old(db.mothers[k].nextAppointmentDate))
    ensures digits == "2" ==> db.mothers == old(db.mothers)[k := old(db.mothers[k]).(flagged := true)]
    ensures digits != "2" ==> db.mothers == old(db.mothers)
    ensures ResponseTypeFor(digits).None? ==> db.callLogs == old(db.callLogs)
    ensures ResponseTypeFor(digits).Some? ==>
      db.callLogs == old(db.callLogs) + [ResponseLog(logId, old(db.mothers[k]), ResponseTypeFor(digits).value, callSid)]
    ensures db.ashas == old(db.ashas) && db.healthRecords == old(db.healthRecords)
    ensures db.appointments == old(db.appointments) && db.stocks == old(db.stocks)
  {
    var mother := db.mothers[k];
    if digits == "1" {
      said := ThankYou;
      db.callLogs := db.callLogs + [ResponseLog(logId, mother, "medication_confirmed", callSid)];
    } else if digits == "2" {
      said := HelpComing;
      mother := mother.(flagged := true);
      db.mothers := db.mothers[k := mother];
      db.callLogs := db.callLogs + [ResponseLog(logId, mother, "needs_help", callSid)];
    } else if digits == "3" {
      said := if mother.nextAppointmentDate.Some? then NextAppointment(mother.nextAppointmentDate.value)
              else NoAppointment;
      db.callLogs := db.callLogs + [ResponseLog(logId, mother, "appointment_confirmed", callSid)];
    } else {
      said := InvalidOption;
    }
  }

  /** Key 3 logs 'answered' whether or not an appointment is booked, and
      key 2 is the only key that logs 'pressed_2'. */
  lemma KeyResults(digits: string)
    requires ResponseTypeFor(digits).Some?
    ensures digits == "3" ==> ResultFor(ResponseTypeFor(digits).value) == "answered"
    ensures ResultFor(ResponseTypeFor(digits).value) == "pressed_2" <==> digits == "2"
  {
  }

  // ---------------------------------------------------------------------------
  // Placing a call
  // ---------------------------------------------------------------------------

  /** The provider settings; an empty string is an unset setting. */
  datatype Settings = Settings(exotelKey: string, exotelToken: string, twilioSid: string, twilioToken: string)

  datatype Provider = Exotel | Twilio

  /** Exotel is used when both its key and token are set, Twilio otherwise. */
  function ChooseProvider(s: Settings): (r: Provider)
    ensures r == Exotel <==> s.exotelKey != "" && s.exotelToken != ""
  {
    if s.exotelKey != "" && s.exotelToken != "" then Exotel else Twilio
  }

  /** What Twilio's client does: creates the call, or raises. */
  datatype TwilioAnswer = TwilioCreated(sid: string, status: string) | TwilioRaised(message: string)

  /** What the Exotel request gives: an HTTP status with the call id the body
      carries (if any) and the body text, or an exception. */
  datatype ExotelAnswer = ExotelResponse(code: int, sid: Option<string>, text: string) | ExotelRaised(message: string)

  datatype FailReason =
    | TwilioNotConfigured
    | ProviderApiError(code: int, details: string)
    | Raised(message: string)

  /** The dictionary `initiate_call` returns. */
  datatype CallAttempt =
    | Started(callSid: string, status: string, provider: Option<string>)
    | Failed(reason: FailReason, failedProvider: Option<string>)

  /** `initiate_call`: only the chosen provider's answer is consulted;
      Twilio without a SID or token fails before any call. */
  function InitiateCall(s: Settings, twilio: TwilioAnswer, exotel: ExotelAnswer): (r: CallAttempt)
    ensures ChooseProvider(s) == Twilio ==> (r.Failed? && r.reason == TwilioNotConfigured <==>
      s.twilioSid == "" || s.twilioToken == "")
    ensures ChooseProvider(s) == Exotel ==> (r.Started? ==> r.provider == Some("exotel") && r.status == "initiated")
    ensures ChooseProvider(s) == Exotel ==> (r.Started? <==> exotel.ExotelResponse? && exotel.code in {200, 201})
    ensures ChooseProvider(s) == Twilio ==> (r.Started? <==>
      s.twilioSid != "" && s.twilioToken != "" && twilio.TwilioCreated?)
    ensures ChooseProvider(s) == Twilio && r.Started? ==> r.provider.None?
  {
    match ChooseProvider(s)
    case Exotel =>
      (match exotel
       case ExotelResponse(code, sid, text) =>
         if code == 200 || code == 201 then
           Started(if sid.Some? then sid.value else "pending", "initiated", Some("exotel"))
         else Failed(ProviderApiError(code, text), None)
       case ExotelRaised(message) => Failed(Raised(message), Some("exotel")))
    case Twilio =>
      if s.twilioSid == "" || s.twilioToken == "" then Failed(TwilioNotConfigured, None)
      else match twilio
        case TwilioCreated(sid, status) => Started(sid, status, None)
        case TwilioRaised(message) => Failed(Raised(message), None)
  }
}
