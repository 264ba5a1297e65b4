/** The telephony webhook: the provider posts call events; the caller's
    number is normalised and looked up, and the event is dispatched: a new
    call gets the greeting, a key press goes to the service, and a finished
    call is logged (and its mother flagged when nobody answered). */
module IvrRoutes {
  import opened Common
  import opened Records
  import Helpers
  import IvrService

  /** A numeric form field: the text as sent and what `int()` makes of it
      (None when it is not a number; empty text never is). */
  datatype IntText = IntText(raw: string, parsed: Option<int>)
  type IntInput = t: IntText | t.raw == "" ==> t.parsed.None? witness IntText("", None)

  /** The posted form; each field may be absent. Twilio and Exotel name
      some fields differently and either name is accepted. */
  datatype Webhook = Webhook(
    callSid: Option<string>, callId: Option<string>,
    from: Option<string>, callerNumber: Option<string>,
    callStatus: Option<string>, status: Option<string>,
    digits: Option<string>, dtmfDigits: Option<string>,
    callDuration: Option<IntInput>)

  /** Python's `a or b` on two optional strings: `a` unless it is absent or
      empty. */
  function Or(a: Option<string>, b: Option<string>): (r: Option<string>)
    ensures a.Some? && a.value != "" ==> r == a
    ensures !(a.Some? && a.value != "") ==> r == b
  {
    if a.Some? && a.value != "" then a else b
  }

  /** The digits of the caller's number, without a leading 91 country code
      when there are twelve of them. */
  function PhoneDigits(phone: string): (r: string)
    ensures var d := Digits(phone);
      r == if |d| == 12 && StartsWith(d, "91") then d[2..] else d
    ensures forall i :: 0 <= i < |r| ==> IsDigit(r[i])
  {
    var d := Digits(phone);
    if |d| == 12 && StartsWith(d, "91") then d[2..] else d
  }

  /** The forms the number is looked up in, in order. The fourth is guarded
      by a test for a '+' prefix on a digit string, which always passes. */
  function Candidates(phone: string): (r: seq<string>)
    ensures |r| == 4
  {
    [PhoneDigits(phone), Helpers.FormatPhoneNumber(phone), phone, "+91" + PhoneDigits(phone)]
  }

  /** `filter_by(phone=p).first()`: the first mother with that phone. */
  function FindByPhone(mothers: seq<MotherRow>, p: string): (r: Option<nat>)
    ensures r.Some? ==> r.value < |mothers| && mothers[r.value].phone == p
    ensures r.Some? ==> forall j :: 0 <= j < r.value ==> mothers[j].phone != p
    ensures r.None? <==> forall j :: 0 <= j < |mothers| ==> mothers[j].phone != p
  {
    if mothers == [] then None
    else if mothers[0].phone == p then Some(0)
    else match FindByPhone(mothers[1..], p)
      case None => None
      case Some(k) => Some(k + 1)
  }

  /** The cascade: the first form that finds anyone decides, and within it
      the first mother found. */
  function Cascade(mothers: seq<MotherRow>, forms: seq<string>): (r: Option<nat>)
    ensures r.Some? ==> r.value < |mothers| && mothers[r.value].phone in forms
  {
    if forms == [] then None
    else match FindByPhone(mothers, forms[0])
      case Some(k) => Some(k)
      case None => Cascade(mothers, forms[1..])
  }

  /** Form `c` is the first of `forms` that finds anyone, and finds `r`. */
  ghost predicate FirstHitAt(mothers: seq<MotherRow>, forms: seq<string>, c: int, r: Option<nat>) {
    && 0 <= c < |forms|
    && FindByPhone(mothers, forms[c]) == r
    && forall c' :: 0 <= c' < c ==> FindByPhone(mothers, forms[c']).None?
  }

  lemma {:induction false} CascadeFirstHit(mothers: seq<MotherRow>, forms: seq<string>)
    ensures var r := Cascade(mothers, forms);
      r.Some? ==> exists c :: FirstHitAt(mothers, forms, c, r)
    ensures Cascade(mothers, forms).None? <==> forall c :: 0 <= c < |forms| ==> FindByPhone(mothers, forms[c]).None?
  {
    if forms != [] && FindByPhone(mothers, forms[0]).None? {
      var rest := forms[1..];
      CascadeFirstHit(mothers, rest);
      var r := Cascade(mothers, rest);
      if r.Some? {
        var c :| FirstHitAt(mothers, rest, c, r);
        assert FindByPhone(mothers, forms[c + 1]) == r;
        forall c' | 0 <= c' < c + 1 ensures FindByPhone(mothers, forms[c']).None? {
          if c' > 0 { assert forms[c'] == rest[c' - 1]; }
        }
        assert FirstHitAt(mothers, forms, c + 1, r);
      } else {
        forall c | 0 <= c < |forms| ensures FindByPhone(mothers, forms[c]).None? {
          if c > 0 { assert forms[c] == rest[c - 1]; }
        }
      }
    } else if forms != [] {
      assert FirstHitAt(mothers, forms, 0, Cascade(mothers, forms));
    }
  }

  /** The mother the webhook acts on, if any: one whose number is one of
      the looked-up forms. */
  function LookupMother(mothers: seq<MotherRow>, phone: string): (r: Option<nat>)
    ensures r.Some? ==> r.value < |mothers| && mothers[r.value].phone in Candidates(phone)
  {
    Cascade(mothers, Candidates(phone))
  }

  /** The mother found has the number in one of the looked-up forms, and
      the lookup fails only when no mother has any of them. */
  lemma LookupSpec(mothers: seq<MotherRow>, phone: string)
    ensures var r := LookupMother(mothers, phone);
      r.Some? ==> mothers[r.value].phone in Candidates(phone)
    ensures LookupMother(mothers, phone).None? <==>
      forall j :: 0 <= j < |mothers| ==> mothers[j].phone !in Candidates(phone)
  {
    var forms := Candidates(phone);
    CascadeFirstHit(mothers, forms);
    var r := LookupMother(mothers, phone);
    if r.None? {
      forall j | 0 <= j < |mothers| ensures mothers[j].phone !in forms {
        forall c | 0 <= c < |forms| ensures mothers[j].phone != forms[c] {
          assert FindByPhone(mothers, forms[c]).None?;
        }
      }
    } else {
      var c :| FirstHitAt(mothers, forms, c, r);
    }
  }

  /** A mother stored under her bare ten-digit number is found whether the
      provider sends those ten digits, with a 91 or +91 prefix, or with
      spaces and dashes. */
  lemma FindsBareTenDigitNumber(mothers: seq<MotherRow>, phone: string, j: nat)
    requires j < |mothers| && |mothers[j].phone| == 10
    requires Digits(phone) == mothers[j].phone || Digits(phone) == "91" + mothers[j].phone
    ensures LookupMother(mothers, phone).Some?
  {
    var d := mothers[j].phone;
    if Digits(phone) == "91" + d {
      assert StartsWith("91" + d, "91");
      assert ("91" + d)[2..] == d;
    }
    assert PhoneDigits(phone) == d;
    assert mothers[j].phone in Candidates(phone);
    LookupSpec(mothers, phone);
  }

  /** What the webhook answers. */
  datatype WebhookReply =
    | Error(code: int, message: string)
    | Greeting(mother: nat)
    | Input(mother: nat, said: IvrService.Spoken)
    | Logged
    | Okay

  /** The result a finished call is logged with: answered exactly when the
      reported duration is present, non-empty and positive. */
  function CompletedResult(duration: Option<IntInput>): (r: string)
    requires duration.Some? && duration.value.raw != "" ==> duration.value.parsed.Some?
    ensures r == "answered" <==> duration.Some? && duration.value.raw != "" && duration.value.parsed.value > 0
    ensures r == "answered" || r == "not_answered"
  {
    if duration.Some? && duration.value.raw != "" && duration.value.parsed.value > 0 then "answered"
    else "not_answered"
  }

  /** The duration stored with the log: the number when the field is
      non-empty (so "0" stores 0), nothing otherwise. */
  function StoredDuration(duration: Option<IntInput>): (r: Option<int>)
    requires duration.Some? && duration.value.raw != "" ==> duration.value.parsed.Some?
    ensures r.Some? <==> duration.Some? && duration.value.raw != ""
  {
    if duration.Some? && duration.value.raw != "" then duration.value.parsed else None
  }

  /** `ivr_webhook`. A non-numeric, non-empty duration makes `int()` raise,
      which the route does not catch: the reply is a server error and the
      session is rolled back. */
  method HandleWebhook(db: Database, data: Webhook, logId: string) returns (reply: WebhookReply)
    modifies db
    ensures db.ashas == old(db.ashas) && db.healthRecords == old(db.healthRecords)
    ensures db.appointments == old(db.appointments) && db.stocks == old(db.stocks)
    ensures !Truthy(Or(data.from, data.callerNumber)) ==>
      reply == Error(400, "Phone number not provided") && db.mothers == old(db.mothers) && db.callLogs == old(db.callLogs)
    ensures Truthy(Or(data.from, data.callerNumber)) &&
            LookupMother(old(db.mothers), Or(data.from, data.callerNumber).value).None? ==>
      reply == Error(404, "Mother not found") && db.mothers == old(db.mothers) && db.callLogs == old(db.callLogs)
    ensures Truthy(Or(data.from, data.callerNumber)) &&
            LookupMother(old(db.mothers), Or(data.from, data.callerNumber).value).Some? ==>
      var phone := Or(data.from, data.callerNumber).value;
      var k := LookupMother(old(db.mothers), phone).value;
      var status := Or(data.callStatus, data.status);
      var digits := Or(data.digits, data.dtmfDigits);
      var sid := Or(data.callSid, data.callId);
      var d := data.callDuration;
      && (status == Some("ringing") || status == Some("initiated") ==>
            reply == Greeting(k) && db.mothers == old(db.mothers) && db.callLogs == old(db.callLogs))
      && (status == Some("in-progress") && !Truthy(digits) ==>
            reply == Greeting(k) && db.mothers == old(db.mothers) && db.callLogs == old(db.callLogs))
      && (status == Some("in-progress") && Truthy(digits) ==>
            && reply == Input(k, IvrService.SpokenFor(digits.value, old(db.mothers[k].nextAppointmentDate)))
            && db.mothers == (if digits.value == "2" then old(db.mothers)[k := old(db.mothers[k]).(flagged := true)]
                              else old(db.mothers))
            && db.callLogs == (if IvrService.ResponseTypeFor(digits.value).None? then old(db.callLogs)
                               else old(db.callLogs) + [IvrService.ResponseLog(logId, old(db.mothers[k]),
                                                          IvrService.ResponseTypeFor(digits.value).value, sid)]))
      && ((status == Some("completed") || status == Some("ended")) &&
          d.Some? && d.value.raw != "" && d.value.parsed.None? ==>
            reply == Error(500, ServerError) && db.mothers == old(db.mothers) && db.callLogs == old(db.callLogs))
      && ((status == Some("completed") || status == Some("ended")) &&
          !(d.Some? && d.value.raw != "" && d.value.parsed.None?) ==>
            && reply == Logged
            && db.callLogs == old(db.callLogs) + [CallLog(logId, old(db.mothers[k]).ashaId, old(db.mothers[k]).id,
                                                          phone, CompletedResult(d), StoredDuration(d), sid)]
            && db.mothers == (if CompletedResult(d) == "not_answered"
                              then old(db.mothers)[k := old(db.mothers[k]).(flagged := true)]
                              else old(db.mothers)))
      && (status !in {Some("ringing"), Some("initiated"), Some("in-progress"), Some("completed"), Some("ended")} ==>
            reply == Okay && db.mothers == old(db.mothers) && db.callLogs == old(db.callLogs))
  {
    var callSid := Or(data.callSid, data.callId);
    var phoneNumber := Or(data.from, data.callerNumber);
    var callStatus := Or(data.callStatus, data.status);
    var digits := Or(data.digits, data.dtmfDigits);
    if !Truthy(phoneNumber) {
      return Error(400, "Phone number not provided");
    }
    var found := LookupMother(db.mothers, phoneNumber.value);
    if found.None? {
      return Error(404, "Mother not found");
    }
    var k := found.value;
    if callStatus == Some("ringing") || callStatus == Some("initiated") {
      reply := Greeting(k);
    } else if callStatus == Some("in-progress") {
      if Truthy(digits) {
        var said := IvrService.HandleUserInput(db, k, callSid, digits.value, logId);
        reply := Input(k, said);
      } else {
        reply := Greeting(k);
      }
    } else if callStatus == Some("completed") || callStatus == Some("ended") {
      var d := data.callDuration;
      if d.Some? && d.value.raw != "" && d.value.parsed.None? {
        return Error(500, ServerError);
      }
      var result := CompletedResult(d);
      var mother := db.mothers[k];
      db.callLogs := db.callLogs + [CallLog(logId, mother.ashaId, mother.id, phoneNumber.value,
                                            result, StoredDuration(d), callSid)];
      if result == "not_answered" {
        db.mothers := db.mothers[k := mother.(flagged := true)];
      }
      reply := Logged;
    } else {
      reply := Okay;
    }
  }
}
