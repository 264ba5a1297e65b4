/** Health-worker sign-in and registration. Sign-in compares the stored
    password with the supplied one and gives the same answer for an unknown
    id and a wrong password; the session identity is the record's internal
    id. Registration rejects a worker id that is already taken. */
module AuthRoutes {
  import opened Common
  import opened Records

  /** `ASHA.query.filter_by(asha_id=...).first()`. */
  function FindAsha(ashas: seq<Asha>, ashaId: string): (r: Option<nat>)
    ensures r.Some? ==> r.value < |ashas| && ashas[r.value].ashaId == ashaId
    ensures r.Some? ==> forall j :: 0 <= j < r.value ==> ashas[j].ashaId != ashaId
    ensures r.None? <==> forall j :: 0 <= j < |ashas| ==> ashas[j].ashaId != ashaId
  {
    if ashas == [] then None
    else if ashas[0].ashaId == ashaId then Some(0)
    else match FindAsha(ashas[1..], ashaId)
      case None => None
      case Some(k) => Some(k + 1)
  }

  /** The table's uniqueness constraint on the worker id. */
  predicate UniqueAshaIds(ashas: seq<Asha>) {
    forall i, j :: 0 <= i < j < |ashas| ==> ashas[i].ashaId != ashas[j].ashaId
  }

  datatype LoginRequest = LoginRequest(ashaId: Option<string>, password: Option<string>)

  /** `login`: the reply body is the identity put in the access token. */
  function Login(ashas: seq<Asha>, req: LoginRequest): (r: Reply<string>)
    ensures !Truthy(req.ashaId) || !Truthy(req.password) <==> r == Fail(400, "ASHA ID and password required")
    ensures r.Ok? <==>
      && Truthy(req.ashaId) && Truthy(req.password)
      && FindAsha(ashas, req.ashaId.value).Some?
      && ashas[FindAsha(ashas, req.ashaId.value).value].password == req.password.value
    ensures r.Ok? ==> r == Ok(200, ashas[FindAsha(ashas, req.ashaId.value).value].id)
    ensures r.Fail? && r.code != 400 ==> r == Fail(401, "Invalid credentials")
  {
    if !Truthy(req.ashaId) || !Truthy(req.password) then Fail(400, "ASHA ID and password required")
    else match FindAsha(ashas, req.ashaId.value)
      case None => Fail(401, "Invalid credentials")
      case Some(k) =>
        if ashas[k].password != req.password.value then Fail(401, "Invalid credentials")
        else Ok(200, ashas[k].id)
  }

  /** An unknown id and a wrong password cannot be told apart. */
  lemma UnknownAndWrongPasswordAlike(ashas: seq<Asha>, unknown: LoginRequest, wrong: LoginRequest)
    requires Truthy(unknown.ashaId) && Truthy(unknown.password) && FindAsha(ashas, unknown.ashaId.value).None?
    requires Truthy(wrong.ashaId) && Truthy(wrong.password) && FindAsha(ashas, wrong.ashaId.value).Some?
    requires ashas[FindAsha(ashas, wrong.ashaId.value).value].password != wrong.password.value
    ensures Login(ashas, unknown) == Login(ashas, wrong)
  {
  }

  datatype RegisterRequest = RegisterRequest(
    ashaId: Option<string>,
    password: Option<string>,
    name: Option<string>,
    phcName: Option<string>,
    phone: Option<string>,
    email: Option<string>)

  const RequiredFields: seq<string> := ["asha_id", "password", "name", "phc_name"]

  predicate Given(req: RegisterRequest, field: string) {
    match field
    case "asha_id" => Truthy(req.ashaId)
    case "password" => Truthy(req.password)
    case "name" => Truthy(req.name)
    case "phc_name" => Truthy(req.phcName)
    case _ => false
  }

  predicate Complete(req: RegisterRequest) {
    Truthy(req.ashaId) && Truthy(req.password) && Truthy(req.name) && Truthy(req.phcName)
  }

  /** The index of the first required field the request lacks. */
  function FirstMissing(req: RegisterRequest, fields: seq<string>): (r: Option<nat>)
    ensures r.Some? ==> r.value < |fields| && !Given(req, fields[r.value])
    ensures r.Some? ==> forall j :: 0 <= j < r.value ==> Given(req, fields[j])
    ensures r.None? <==> forall j :: 0 <= j < |fields| ==> Given(req, fields[j])
  {
    if fields == [] then None
    else if !Given(req, fields[0]) then Some(0)
    else match FirstMissing(req, fields[1..])
      case None => None
      case Some(k) => Some(k + 1)
  }

  /** The field loop lets a request through exactly when it is complete. */
  lemma NoneMissingIffComplete(req: RegisterRequest)
    ensures FirstMissing(req, RequiredFields).None? <==> Complete(req)
  {
    if FirstMissing(req, RequiredFields).None? {
      assert Given(req, RequiredFields[0]) && Given(req, RequiredFields[1]);
      assert Given(req, RequiredFields[2]) && Given(req, RequiredFields[3]);
    }
    if Complete(req) {
      forall j | 0 <= j < |RequiredFields| ensures Given(req, RequiredFields[j]) {
      }
    }
  }

  /** `register`: the required fields in order, then the duplicate check;
      on success exactly one worker is added, and the reply carries the new
      record (whose id becomes the session identity). */
  method Register(db: Database, req: RegisterRequest, id: string) returns (reply: Reply<Asha>)
    modifies db
    ensures db.mothers == old(db.mothers) && db.callLogs == old(db.callLogs) && db.stocks == old(db.stocks)
    ensures db.healthRecords == old(db.healthRecords) && db.appointments == old(db.appointments)
    ensures !Complete(req) ==>
      FirstMissing(req, RequiredFields).Some? &&
      reply == Fail(400, RequiredFields[FirstMissing(req, RequiredFields).value] + " is required")
    ensures Complete(req) && FindAsha(old(db.ashas), req.ashaId.value).Some? ==>
      reply == Fail(400, "ASHA ID already exists")
    ensures reply.Fail? ==> db.ashas == old(db.ashas)
    ensures reply.Ok? <==> Complete(req) && FindAsha(old(db.ashas), req.ashaId.value).None?
    ensures reply.Ok? ==>
      && reply == Ok(201, Asha(id, req.ashaId.value, req.password.value, req.name.value, req.phcName.value,
                               req.phone, req.email))
      && db.ashas == old(db.ashas) + [reply.body]
  {
    var i := 0;
    while i < |RequiredFields|
      invariant 0 <= i <= |RequiredFields|
      invariant forall j :: 0 <= j < i ==> Given(req, RequiredFields[j])
    {
      if !Given(req, RequiredFields[i]) {
        NoneMissingIffComplete(req);
        return Fail(400, RequiredFields[i] + " is required");
      }
      i := i + 1;
    }
    NoneMissingIffComplete(req);
    if FindAsha(db.ashas, req.ashaId.value).Some? {
      return Fail(400, "ASHA ID already exists");
    }
    var asha := Asha(id, req.ashaId.value, req.password.value, req.name.value, req.phcName.value,
                     req.phone, req.email);
    db.ashas := db.ashas + [asha];
    reply := Ok(201, asha);
  }

  /** A successful registration keeps worker ids unique. */
  lemma {:induction false} RegisterKeepsUnique(ashas: seq<Asha>, a: Asha)
    requires UniqueAshaIds(ashas) && FindAsha(ashas, a.ashaId).None?
    ensures UniqueAshaIds(ashas + [a])
  {
    var s := ashas + [a];
    forall i, j | 0 <= i < j < |s| ensures s[i].ashaId != s[j].ashaId {
      assert s[i] == ashas[i];
      if j < |ashas| {
        assert s[j] == ashas[j];
      }
    }
  }

  /** Appending a worker whose id was free makes it the one a lookup finds. */
  lemma {:induction false} FoundAfterAppend(ashas: seq<Asha>, a: Asha)
    requires FindAsha(ashas, a.ashaId).None?
    ensures FindAsha(ashas + [a], a.ashaId) == Some(|ashas|)
  {
    if ashas != [] {
      assert (ashas + [a])[1..] == ashas[1..] + [a];
      FoundAfterAppend(ashas[1..], a);
    }
  }

  /** Right after registering, the same id and password sign in, with the
      new record's internal id as the identity. */
  lemma LoginAfterRegister(ashas: seq<Asha>, a: Asha)
    requires FindAsha(ashas, a.ashaId).None? && a.ashaId != "" && a.password != ""
    ensures Login(ashas + [a], LoginRequest(Some(a.ashaId), Some(a.password))) == Ok(200, a.id)
  {
    FoundAfterAppend(ashas, a);
  }
}
