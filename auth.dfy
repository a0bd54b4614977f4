/**
 * routes/RAuth.py: `Login`, `Logout` and `Register`.  A POST to `Login` or
 * `Register` reads the JSON body field by field inside a `try`; every
 * exception raised there is answered with `msg(1, e, log=True)`.  What a
 * request body decides is stated by the pure functions `LoginDecision` and
 * `RegisterDecision`; the handlers are proved against them, and the lemmas
 * relate the routes to the user table, to each other and to the login gate.
 */
module Auth {
  import opened Wrappers
  import opened Values
  import opened Signing
  import opened Clock
  import opened Uuids
  import opened Http
  import opened Sessions
  import opened Tools
  import opened Users
  import opened Inicio

  const WrongCredentials: string := "Usuario o contraseña incorrectos."
  const PasswordsDiffer: string := "Las contraseñas no coinciden"
  const NameInUse: string := "Este nombre de usuario esta ocupado"

  /** `msg(redirect="/")`: status 0, an empty message, and the home page to go to. */
  function ToHome(): Doc {
    Envelope(0, Text(""), map["redirect" := Str("/")])
  }

  // ----------------------------------------------------------------- Login

  /** What a POST to `/Login` comes to, given the body `get_json()` yields. */
  datatype LoginVerdict = BadCredentials | SignIn(iduser: Value) | LoginRaises(e: Exc)

  /**
   * `data = request.get_json()`, then `data["username"]` and
   * `data["password"]`, in this order: the first that raises stops the reading.
   */
  function Credentials(json: Result<Value, Exc>): (r: Result<(Value, Value), Exc>)
    ensures r.Success? <==> json.Success? && json.value.Obj? && "username" in json.value.fields && "password" in json.value.fields
    ensures r.Success? ==> r.value == (json.value.fields["username"], json.value.fields["password"])
    ensures json.Failure? ==> r == Failure(json.error)
  {
    match json
    case Failure(e) => Failure(e)
    case Success(data) =>
      match Subscript(data, "username")
      case Failure(e) => Failure(e)
      case Success(username) =>
        match Subscript(data, "password")
        case Failure(e) => Failure(e)
        case Success(password) => Success((username, password))
  }

  /** Once the credentials are read: the lookup of an active user with both (which raises for a rejected query), then `Admit`. */
  function LoginCheck(docs: seq<Doc>, username: Value, password: Value): LoginVerdict {
    match GetUserLogin(docs, username, password)
    case Failure(e) => LoginRaises(e)
    case Success(None) => BadCredentials
    case Success(Some(user)) => Admit(user)
  }

  /** `user["iduser"]` on the user found: the value to sign in with, or the `KeyError`. */
  function Admit(user: Doc): LoginVerdict {
    match DocGet(user, "iduser")
    case Failure(e) => LoginRaises(e)
    case Success(iduser) => SignIn(iduser)
  }

  /** The verdict on a login body. */
  function LoginDecision(json: Result<Value, Exc>, docs: seq<Doc>): (r: LoginVerdict)
    ensures r.SignIn? ==> exists j ::
      && 0 <= j < |docs| && "iduser" in docs[j] && docs[j]["iduser"] == r.iduser
      && FieldMatches(docs[j], "status", Str("A"))
    ensures r.BadCredentials? ==>
      && Credentials(json).Success?
      && var (username, password) := Credentials(json).value;
         forall j :: 0 <= j < |docs| ==> !Matches(docs[j], LoginQuery(username, password))
  {
    match Credentials(json)
    case Failure(e) => LoginRaises(e)
    case Success((username, password)) => LoginCheck(docs, username, password)
  }

  /** The JSON answer to each verdict. */
  function LoginReply(v: LoginVerdict): Doc {
    match v
    case BadCredentials => Envelope(1, Text(WrongCredentials), map[])
    case SignIn(_) => ToHome()
    case LoginRaises(e) => Envelope(1, Raised(e), map[])
  }

  /**
   * The world after `Session[key] = value` on a session built from the
   * request's cookie, where `minted` is the next random value, the one a
   * missing id would be made from.
   */
  function Stored(w0: World, cookie: Option<string>, host: string, signer: Signer, minted: Uuid,
                  key: string, value: Value, now: Instant): World
  {
    var id := Resolve(None, cookie, signer, Dashed(minted));
    World(SetAt(TouchAt(w0.records, id, now), id, key, value, now),
          w0.pending + [SessionCookie(signer, id, host)],
          w0.count + Draws(None, cookie, signer),
          w0.entries)
  }

  /** The world after `msg(1, e, log=True)`: the next random value `u` is the `idlog` of one error entry. */
  function Logged(w0: World, u: Uuid, e: Exc, now: Instant): World {
    w0.(count := w0.count + 1, entries := w0.entries + [LogEntry(u, now, Error, ExcText(e))])
  }

  /**
   * A POST to `/Login`, with `u` the next random value: wrong credentials
   * change nothing; a sign-in stores the user's `iduser` in the session of
   * the request's cookie (or a new one); an exception is logged and changes
   * nothing else.
   */
  predicate LoginEffect(cookie: Option<string>, host: string, signer: Signer, u: Uuid, now: Instant,
                        v: LoginVerdict, w0: World, w: World)
    ensures LoginEffect(cookie, host, signer, u, now, v, w0, w) ==> w0.entries <= w.entries && w0.count <= w.count
    ensures LoginEffect(cookie, host, signer, u, now, v, w0, w) && !v.LoginRaises? ==> w.entries == w0.entries
  {
    match v
    case BadCredentials => w == w0
    case SignIn(iduser) => w == Stored(w0, cookie, host, signer, u, "iduser", iduser, now)
    case LoginRaises(e) => w == Logged(w0, u, e, now)
  }

  /**
   * `Login()`: the form for every method but POST; for a POST, the reads,
   * then `CheckLogin`, and for what the reads raise, the logged error answer.
   */
  method Login(store: SessionStore, req: Request, signer: Signer, rng: Entropy, logs: LogStore,
               users: UserTable, now: Instant) returns (resp: Response)
    requires store.Valid()
    modifies store, req, rng, logs
    ensures store.Valid()
    ensures req.verb != "POST" ==>
      && resp == Render("Login.html")
      && store.records == old(store.records) && req.pending == old(req.pending)
      && rng.count == old(rng.count) && logs.entries == old(logs.entries)
    ensures req.verb == "POST" ==>
      && resp == Json(LoginReply(LoginDecision(req.json, users.docs)))
      && LoginEffect(req.cookie, req.host, signer, rng.draw(old(rng.count)), now, LoginDecision(req.json, users.docs),
                     World(old(store.records), old(req.pending), old(rng.count), old(logs.entries)),
                     World(store.records, req.pending, rng.count, logs.entries))
  {
    if req.verb != "POST" {
      return Render("Login.html");
    }
    ghost var w0 := World(store.records, req.pending, rng.count, logs.entries);
    ghost var u := rng.draw(rng.count);
    var credentials := Credentials(req.json);
    if credentials.Failure? {
      var body := MsgErr(logs, rng, credentials.error, now);
      UnreadableLoginSteps(req.cookie, req.host, signer, u, now, req.json, users.docs, credentials.error,
                           w0, World(store.records, req.pending, rng.count, logs.entries));
      return Json(body);
    }
    var (username, password) := credentials.value;
    var body := CheckLogin(store, req, signer, rng, logs, users, username, password, now);
    ReadableLoginSteps(req.cookie, req.host, signer, u, now, req.json, users.docs, username, password,
                       w0, World(store.records, req.pending, rng.count, logs.entries));
    return Json(body);
  }

  /** A body whose credentials cannot be read: the logged error. */
  lemma UnreadableLoginSteps(cookie: Option<string>, host: string, signer: Signer, u: Uuid, now: Instant,
                             json: Result<Value, Exc>, docs: seq<Doc>, e: Exc, w0: World, w: World)
    requires Credentials(json) == Failure(e)
    requires w == Logged(w0, u, e, now)
    ensures LoginDecision(json, docs) == LoginRaises(e)
    ensures LoginEffect(cookie, host, signer, u, now, LoginDecision(json, docs), w0, w)
  {
  }

  /** A body whose credentials are read: what `CheckLogin` does with them. */
  lemma ReadableLoginSteps(cookie: Option<string>, host: string, signer: Signer, u: Uuid, now: Instant,
                           json: Result<Value, Exc>, docs: seq<Doc>, username: Value, password: Value,
                           w0: World, w: World)
    requires Credentials(json) == Success((username, password))
    requires LoginEffect(cookie, host, signer, u, now, LoginCheck(docs, username, password), w0, w)
    ensures LoginDecision(json, docs) == LoginCheck(docs, username, password)
    ensures LoginEffect(cookie, host, signer, u, now, LoginDecision(json, docs), w0, w)
  {
  }

  /** The rest of `Login`'s `try` block once the credentials are read: `GetUserLogin`, then the refusal or `SignInUser`. */
  method CheckLogin(store: SessionStore, req: Request, signer: Signer, rng: Entropy, logs: LogStore,
                    users: UserTable, username: Value, password: Value, now: Instant) returns (body: Doc)
    requires store.Valid()
    modifies store, req, rng, logs
    ensures store.Valid()
    ensures body == LoginReply(LoginCheck(users.docs, username, password))
    ensures LoginEffect(req.cookie, req.host, signer, rng.draw(old(rng.count)), now, LoginCheck(users.docs, username, password),
                        World(old(store.records), old(req.pending), old(rng.count), old(logs.entries)),
                        World(store.records, req.pending, rng.count, logs.entries))
  {
    ghost var w0 := World(store.records, req.pending, rng.count, logs.entries);
    ghost var u := rng.draw(rng.count);
    var user := GetUserLogin(users.docs, username, password);
    if user.Failure? {
      body := MsgErr(logs, rng, user.error, now);
    } else if user.value.None? {
      body := Envelope(1, Text(WrongCredentials), map[]);
    } else {
      body := SignInUser(store, req, signer, rng, logs, user.value.value, now);
    }
    LoginSteps(req.cookie, req.host, signer, u, now, users.docs, username, password, user, body,
               w0, World(store.records, req.pending, rng.count, logs.entries));
  }

  /** Each outcome of the lookup, answered as `CheckLogin` answers it, is the reply and the effect of its verdict. */
  lemma LoginSteps(cookie: Option<string>, host: string, signer: Signer, u: Uuid, now: Instant,
                   docs: seq<Doc>, username: Value, password: Value, user: Result<Option<Doc>, Exc>, body: Doc,
                   w0: World, w: World)
    requires user == GetUserLogin(docs, username, password)
    requires user.Failure? ==> body == Envelope(1, Raised(user.error), map[]) && w == Logged(w0, u, user.error, now)
    requires user.Success? && user.value.None? ==> body == Envelope(1, Text(WrongCredentials), map[]) && w == w0
    requires user.Success? && user.value.Some? ==>
      body == LoginReply(Admit(user.value.value)) && LoginEffect(cookie, host, signer, u, now, Admit(user.value.value), w0, w)
    ensures body == LoginReply(LoginCheck(docs, username, password))
    ensures LoginEffect(cookie, host, signer, u, now, LoginCheck(docs, username, password), w0, w)
  {
  }

  /**
   * `Session["iduser"] = user["iduser"]` and `msg(redirect="/")`; a user
   * without `iduser` raises before anything changes, and the handler logs it.
   */
  method SignInUser(store: SessionStore, req: Request, signer: Signer, rng: Entropy, logs: LogStore,
                    user: Doc, now: Instant) returns (body: Doc)
    requires store.Valid()
    modifies store, req, rng, logs
    ensures store.Valid()
    ensures body == LoginReply(Admit(user))
    ensures LoginEffect(req.cookie, req.host, signer, rng.draw(old(rng.count)), now, Admit(user),
                        World(old(store.records), old(req.pending), old(rng.count), old(logs.entries)),
                        World(store.records, req.pending, rng.count, logs.entries))
  {
    ghost var w0 := World(store.records, req.pending, rng.count, logs.entries);
    ghost var u := rng.draw(rng.count);
    var iduser := DocGet(user, "iduser");
    if iduser.Failure? {
      body := MsgErr(logs, rng, iduser.error, now);
      assert Admit(user) == LoginRaises(iduser.error);
      return;
    }
    RememberUser(store, req, signer, rng, logs, iduser.value, now);
    assert Admit(user) == SignIn(iduser.value);
    AdmitSteps(req.cookie, req.host, signer, u, now, user, w0, World(store.records, req.pending, rng.count, logs.entries));
    return Envelope(0, Text(""), map["redirect" := Str("/")]);
  }

  /** A user with an `iduser`, remembered in the session, is the effect of admitting that user. */
  lemma AdmitSteps(cookie: Option<string>, host: string, signer: Signer, u: Uuid, now: Instant,
                   user: Doc, w0: World, w: World)
    requires DocGet(user, "iduser").Success?
    requires w == Stored(w0, cookie, host, signer, u, "iduser", DocGet(user, "iduser").value, now)
    ensures LoginReply(Admit(user)) == Envelope(0, Text(""), map["redirect" := Str("/")])
    ensures LoginEffect(cookie, host, signer, u, now, Admit(user), w0, w)
  {
  }

  /** `iduser` is written as one field name. */
  lemma IduserIsSimple()
    ensures SimpleKey("iduser")
  {
  }

  /** `Session["iduser"] = iduser` on a session built from the cookie: never raises, and gives `Stored`. */
  method RememberUser(store: SessionStore, req: Request, signer: Signer, rng: Entropy, logs: LogStore,
                      iduser: Value, now: Instant)
    requires store.Valid()
    modifies store, req, rng
    ensures store.Valid()
    ensures World(store.records, req.pending, rng.count, logs.entries)
         == Stored(World(old(store.records), old(req.pending), old(rng.count), old(logs.entries)),
                   req.cookie, req.host, signer, rng.draw(old(rng.count)), "iduser", iduser, now)
  {
    ghost var w0 := World(store.records, req.pending, rng.count, logs.entries);
    ghost var u := rng.draw(rng.count);
    var raised := MetaSet(store, req, signer, rng, "iduser", iduser, None, now);
    assert raised == None by {
      IduserIsSimple();
    }
    StoredSteps(w0, req.cookie, req.host, signer, u, "iduser", iduser, now,
                World(store.records, req.pending, rng.count, logs.entries));
  }

  /** The writes of `Session[key] = value` on a session built from the cookie make up `Stored`. */
  lemma StoredSteps(w0: World, cookie: Option<string>, host: string, signer: Signer, minted: Uuid,
                    key: string, value: Value, now: Instant, w: World)
    requires w.records == SetAt(TouchAt(w0.records, Resolve(None, cookie, signer, Dashed(minted)), now),
                                Resolve(None, cookie, signer, Dashed(minted)), key, value, now)
    requires w.pending == w0.pending + [SessionCookie(signer, Resolve(None, cookie, signer, Dashed(minted)), host)]
    requires w.count == w0.count + Draws(None, cookie, signer) && w.entries == w0.entries
    ensures w == Stored(w0, cookie, host, signer, minted, key, value, now)
  {
  }

  /**
   * With both fields present, a query the server rejects is logged; else
   * the login is refused exactly when no stored user is active and matches
   * the credentials as conditions; a sign-in carries the `iduser` of an
   * active user matching them.
   */
  lemma LoginNeedsActiveUser(json: Result<Value, Exc>, docs: seq<Doc>, fields: map<string, Value>)
    requires json == Success(Obj(fields)) && "username" in fields && "password" in fields
    ensures !ConditionAccepted(fields["username"]) || !ConditionAccepted(fields["password"]) ==>
      LoginDecision(json, docs) == LoginRaises(DbError(RejectionText(LoginQuery(fields["username"], fields["password"]))))
    ensures LoginDecision(json, docs) == BadCredentials <==>
      && ConditionAccepted(fields["username"]) && ConditionAccepted(fields["password"])
      && forall j :: 0 <= j < |docs| ==> !Matches(docs[j], LoginQuery(fields["username"], fields["password"]))
    ensures LoginDecision(json, docs).SignIn? ==>
      exists user :: user in docs
        && FieldMatches(user, "status", Str("A"))
        && FieldMatches(user, "username", fields["username"])
        && FieldMatches(user, "password", fields["password"])
        && "iduser" in user && user["iduser"] == LoginDecision(json, docs).iduser
  {
    var found := GetUserLogin(docs, fields["username"], fields["password"]);
    if found.Success? && found.value.Some? {
      assert "iduser" in found.value.value ==> LoginDecision(json, docs) == SignIn(found.value.value["iduser"]);
    }
  }

  /** The body is read in order: what `get_json` raises, then a missing `username`, then a missing `password`. */
  lemma LoginReadsInOrder(json: Result<Value, Exc>, docs: seq<Doc>)
    ensures json.Failure? ==> LoginDecision(json, docs) == LoginRaises(json.error)
    ensures json.Success? && json.value.Obj? && "username" !in json.value.fields ==>
      LoginDecision(json, docs) == LoginRaises(KeyError("username"))
    ensures json.Success? && json.value.Obj? && "username" in json.value.fields && "password" !in json.value.fields ==>
      LoginDecision(json, docs) == LoginRaises(KeyError("password"))
    ensures json.Success? && !json.value.Obj? ==> LoginDecision(json, docs).LoginRaises?
  {
  }

  /**
   * After a sign-in stores a value in session `id`, a later request with the
   * same session passes the gate: as a POST whenever the value is not
   * `None`, as a GET whenever it is truthy.
   */
  lemma SignedInPassesGate(records: Records, id: string, iduser: Value, now: Instant, path: string)
    ensures var after := SetAt(TouchAt(records, id, now), id, "iduser", iduser, now);
      && (iduser != Null ==> Decide(path, "POST", "iduser" in DataAt(after, id), GetAt(after, id, "iduser")) == Pass)
      && (Truthy(iduser) ==> Decide(path, "GET", "iduser" in DataAt(after, id), GetAt(after, id, "iduser")) == Pass)
  {
  }

  // ---------------------------------------------------------------- Logout

  /** The JSON answer of `Logout` to every method but GET. */
  function LoggedOut(): Doc {
    map["status" := Int(0), "redirect__" := Str("/Login")]
  }

  /** `Logout()`: `Session.clear()`, then a redirect to the login page (GET) or its JSON form. */
  method Logout(store: SessionStore, req: Request, signer: Signer) returns (resp: Response)
    requires store.Valid()
    modifies store, req
    ensures store.Valid()
    ensures store.records == ClearedRecords(old(store.records), req.cookie, signer)
    ensures req.pending == old(req.pending) + ClearActions(req.cookie, req.host)
    ensures req.verb == "GET" ==> resp == Redirect("/Login")
    ensures req.verb != "GET" ==>
      && resp.Json? && resp.body.Keys == {"status", "redirect__"}
      && resp.body["status"] == Int(0) && resp.body["redirect__"] == Str("/Login")
  {
    Clear(store, req, signer);
    if req.verb == "GET" {
      return Redirect("/Login");
    }
    return Json(LoggedOut());
  }

  /**
   * After logging out with a validly signed cookie, the same cookie still
   * names its session, but that session has no record: replaying it is
   * stopped by the gate on every gated path.
   */
  lemma LogoutEndsSession(records: Records, signer: Signer, i: string, minted: string, path: string)
    requires WellFormed(signer) && i != "" && !Public(path)
    ensures var cookie := Some(Sign(signer, i));
      var after := ClearedRecords(records, cookie, signer);
      && Resolve(None, cookie, signer, minted) == i
      && i !in after
      && Decide(path, "POST", "iduser" in DataAt(after, i), GetAt(after, i, "iduser")) == Deny
      && Decide(path, "GET", "iduser" in DataAt(after, i), GetAt(after, i, "iduser")) == RedirectTo("/Login")
  {
    SignedCookieResolves(signer, i, minted);
    ClearRemovesSignedId(records, signer, i);
    UnknownSessionStopped(ClearedRecords(records, Some(Sign(signer, i)), signer), i, path);
  }

  // -------------------------------------------------------------- Register

  /** What a POST to `/Register` comes to, given the body and the stored users. */
  datatype RegisterVerdict = Mismatch | NameTaken | Enrol(username: Value, password: Value) | RegisterRaises(e: Exc)

  /**
   * `data = request.get_json()`, then `data["username"]`, `data["password"]`
   * and `data["confirm_password"]`, in this order: the first that raises
   * stops the reading.
   */
  function RegistrationFields(json: Result<Value, Exc>): (r: Result<(Value, Value, Value), Exc>)
    ensures r.Success? <==> Credentials(json).Success? && "confirm_password" in json.value.fields
    ensures r.Success? ==> r.value == (json.value.fields["username"], json.value.fields["password"], json.value.fields["confirm_password"])
    ensures Credentials(json).Failure? ==> r == Failure(Credentials(json).error)
  {
    match Credentials(json)
    case Failure(e) => Failure(e)
    case Success((username, password)) =>
      match Subscript(json.value, "confirm_password")
      case Failure(e) => Failure(e)
      case Success(confirm) => Success((username, password, confirm))
  }

  /**
   * Once the three fields are read: the passwords must be equal in Python's
   * sense, then the name must be free (a rejected name query raises).
   */
  function RegisterCheck(docs: seq<Doc>, username: Value, password: Value, confirm: Value): RegisterVerdict {
    if !PyEq(password, confirm) then Mismatch
    else
      match GetUserByName(docs, username)
      case Failure(e) => RegisterRaises(e)
      case Success(Some(_)) => NameTaken
      case Success(None) => Enrol(username, password)
  }

  /** The verdict on a registration body. */
  function RegisterDecision(json: Result<Value, Exc>, docs: seq<Doc>): (r: RegisterVerdict)
    ensures r.Mismatch? || r.NameTaken? || r.Enrol? ==> RegistrationFields(json).Success?
    ensures r.Mismatch? ==> !PyEq(RegistrationFields(json).value.1, RegistrationFields(json).value.2)
    ensures r.Enrol? ==>
      && var (username, password, confirm) := RegistrationFields(json).value;
      && r == Enrol(username, password) && PyEq(password, confirm)
      && forall j :: 0 <= j < |docs| ==> !FieldMatches(docs[j], "username", username)
  {
    match RegistrationFields(json)
    case Failure(e) => RegisterRaises(e)
    case Success((username, password, confirm)) => RegisterCheck(docs, username, password, confirm)
  }

  /** The JSON answer to each verdict. */
  function RegisterReply(v: RegisterVerdict): Doc {
    match v
    case Mismatch => Envelope(1, Text(PasswordsDiffer), map[])
    case NameTaken => Envelope(1, Text(NameInUse), map[])
    case Enrol(_, _) => ToHome()
    case RegisterRaises(e) => Envelope(1, Raised(e), map[])
  }

  /** The document a registration stores, with `iduser` made from random value `u` and ObjectId `oid`. */
  function Enrolled(u: Uuid, oid: nat, username: Value, password: Value): Doc {
    NewUser(Hex(u), username, password)["_id" := Oid(oid)]
  }

  /**
   * A POST to `/Register`, with `u0` and `u1` the next two random values:
   * refusals change nothing; an enrolment stores the new user (its `iduser`
   * made from `u0`) and then puts that `iduser` in the session (built with
   * `u1` as the value a missing id is made from); an exception is logged
   * (with `u0`) and changes nothing else.
   */
  predicate RegisterEffect(cookie: Option<string>, host: string, signer: Signer, u0: Uuid, u1: Uuid, now: Instant,
                           v: RegisterVerdict, w0: World, docs0: seq<Doc>, oid0: nat, w: World, docs: seq<Doc>, oid: nat)
    ensures RegisterEffect(cookie, host, signer, u0, u1, now, v, w0, docs0, oid0, w, docs, oid) ==>
      && docs0 <= docs && |docs| <= |docs0| + 1
      && w0.entries <= w.entries && w0.count <= w.count
    ensures RegisterEffect(cookie, host, signer, u0, u1, now, v, w0, docs0, oid0, w, docs, oid) && !v.RegisterRaises? ==>
      w.entries == w0.entries
  {
    match v
    case Mismatch => w == w0 && docs == docs0 && oid == oid0
    case NameTaken => w == w0 && docs == docs0 && oid == oid0
    case Enrol(username, password) =>
      && docs == docs0 + [Enrolled(u0, oid0, username, password)]
      && oid == oid0 + 1
      && w == Stored(w0.(count := w0.count + 1), cookie, host, signer, u1, "iduser", Str(Hex(u0)), now)
    case RegisterRaises(e) => w == Logged(w0, u0, e, now) && docs == docs0 && oid == oid0
  }

  /**
   * `Register()`: the form for every method but POST; for a POST, the
   * reads, then `CheckRegistration`, and for what the reads raise, the
   * logged error answer.
   */
  method Register(store: SessionStore, req: Request, signer: Signer, rng: Entropy, logs: LogStore,
                  users: UserTable, now: Instant) returns (resp: Response)
    requires store.Valid() && users.Valid()
    modifies store, req, rng, logs, users
    ensures store.Valid() && users.Valid()
    ensures req.verb != "POST" ==>
      && resp == Render("Register.html")
      && store.records == old(store.records) && req.pending == old(req.pending)
      && rng.count == old(rng.count) && logs.entries == old(logs.entries)
      && users.docs == old(users.docs) && users.nextOid == old(users.nextOid)
    ensures req.verb == "POST" ==>
      && resp == Json(RegisterReply(RegisterDecision(req.json, old(users.docs))))
      && RegisterEffect(req.cookie, req.host, signer, rng.draw(old(rng.count)), rng.draw(old(rng.count) + 1), now,
                        RegisterDecision(req.json, old(users.docs)),
                        World(old(store.records), old(req.pending), old(rng.count), old(logs.entries)),
                        old(users.docs), old(users.nextOid),
                        World(store.records, req.pending, rng.count, logs.entries),
                        users.docs, users.nextOid)
  {
    if req.verb != "POST" {
      return Render("Register.html");
    }
    var fields := RegistrationFields(req.json);
    if fields.Failure? {
      var body := MsgErr(logs, rng, fields.error, now);
      return Json(body);
    }
    var (username, password, confirm) := fields.value;
    var body := CheckRegistration(store, req, signer, rng, logs, users, username, password, confirm, now);
    return Json(body);
  }

  /** The checks of `Register` after its reads, and what follows them. */
  method CheckRegistration(store: SessionStore, req: Request, signer: Signer, rng: Entropy, logs: LogStore,
                           users: UserTable, username: Value, password: Value, confirm: Value, now: Instant)
    returns (body: Doc)
    requires store.Valid() && users.Valid()
    modifies store, req, rng, logs, users
    ensures store.Valid() && users.Valid()
    ensures body == RegisterReply(RegisterCheck(old(users.docs), username, password, confirm))
    ensures RegisterEffect(req.cookie, req.host, signer, rng.draw(old(rng.count)), rng.draw(old(rng.count) + 1), now,
                           RegisterCheck(old(users.docs), username, password, confirm),
                           World(old(store.records), old(req.pending), old(rng.count), old(logs.entries)),
                           old(users.docs), old(users.nextOid),
                           World(store.records, req.pending, rng.count, logs.entries),
                           users.docs, users.nextOid)
  {
    if !PyEq(password, confirm) {
      body := Envelope(1, Text(PasswordsDiffer), map[]);
      return;
    }
    body := CheckName(store, req, signer, rng, logs, users, username, password, confirm, now);
  }

  /** The name check of `Register`, once the passwords agree, and what follows it. */
  method CheckName(store: SessionStore, req: Request, signer: Signer, rng: Entropy, logs: LogStore,
                   users: UserTable, username: Value, password: Value, confirm: Value, now: Instant)
    returns (body: Doc)
    requires store.Valid() && users.Valid() && PyEq(password, confirm)
    modifies store, req, rng, logs, users
    ensures store.Valid() && users.Valid()
    ensures body == RegisterReply(RegisterCheck(old(users.docs), username, password, confirm))
    ensures RegisterEffect(req.cookie, req.host, signer, rng.draw(old(rng.count)), rng.draw(old(rng.count) + 1), now,
                           RegisterCheck(old(users.docs), username, password, confirm),
                           World(old(store.records), old(req.pending), old(rng.count), old(logs.entries)),
                           old(users.docs), old(users.nextOid),
                           World(store.records, req.pending, rng.count, logs.entries),
                           users.docs, users.nextOid)
  {
    ghost var w0 := World(store.records, req.pending, rng.count, logs.entries);
    ghost var u0, u1 := rng.draw(rng.count), rng.draw(rng.count + 1);
    var user := GetUserByName(users.docs, username);
    if user.Failure? {
      body := MsgErr(logs, rng, user.error, now);
      RaiseSteps(req.cookie, req.host, signer, u0, u1, now, w0, users.docs, users.nextOid,
                 World(store.records, req.pending, rng.count, logs.entries), users.docs, users.nextOid,
                 username, password, confirm, user.error);
      return;
    }
    if user.value.Some? {
      body := Envelope(1, Text(NameInUse), map[]);
      TakenSteps(req.cookie, req.host, signer, u0, u1, now, w0, users.docs, users.nextOid, username, password, confirm);
      return;
    }
    body := EnrolUser(store, req, signer, rng, logs, users, username, password, now);
    EnrolSteps(req.cookie, req.host, signer, u0, u1, now, w0, old(users.docs), old(users.nextOid),
               World(store.records, req.pending, rng.count, logs.entries), users.docs, users.nextOid,
               username, password, confirm);
  }

  /** A name that some stored user already holds is refused, and nothing changes. */
  lemma TakenSteps(cookie: Option<string>, host: string, signer: Signer, u0: Uuid, u1: Uuid, now: Instant,
                   w0: World, docs0: seq<Doc>, oid0: nat, username: Value, password: Value, confirm: Value)
    requires PyEq(password, confirm) && GetUserByName(docs0, username).Success?
    requires GetUserByName(docs0, username).value.Some?
    ensures RegisterCheck(docs0, username, password, confirm) == NameTaken
    ensures RegisterReply(NameTaken) == Envelope(1, Text(NameInUse), map[])
    ensures RegisterEffect(cookie, host, signer, u0, u1, now, RegisterCheck(docs0, username, password, confirm),
                           w0, docs0, oid0, w0, docs0, oid0)
  {
  }

  /** The steps of an enrolment make up the effect its verdict promises. */
  lemma EnrolSteps(cookie: Option<string>, host: string, signer: Signer, u0: Uuid, u1: Uuid, now: Instant,
                   w0: World, docs0: seq<Doc>, oid0: nat, w: World, docs: seq<Doc>, oid: nat,
                   username: Value, password: Value, confirm: Value)
    requires RegisterCheck(docs0, username, password, confirm) == Enrol(username, password)
    requires docs == docs0 + [Enrolled(u0, oid0, username, password)]
    requires oid == oid0 + 1
    requires w == Stored(w0.(count := w0.count + 1), cookie, host, signer, u1, "iduser", Str(Hex(u0)), now)
    ensures RegisterEffect(cookie, host, signer, u0, u1, now, RegisterCheck(docs0, username, password, confirm),
                           w0, docs0, oid0, w, docs, oid)
  {
  }

  /** A name lookup the server rejects makes up the effect its verdict promises: one logged error. */
  lemma RaiseSteps(cookie: Option<string>, host: string, signer: Signer, u0: Uuid, u1: Uuid, now: Instant,
                   w0: World, docs0: seq<Doc>, oid0: nat, w: World, docs: seq<Doc>, oid: nat,
                   username: Value, password: Value, confirm: Value, e: Exc)
    requires PyEq(password, confirm) && GetUserByName(docs0, username) == Failure(e)
    requires w == Logged(w0, u0, e, now) && docs == docs0 && oid == oid0
    ensures RegisterCheck(docs0, username, password, confirm) == RegisterRaises(e)
    ensures RegisterEffect(cookie, host, signer, u0, u1, now, RegisterCheck(docs0, username, password, confirm),
                           w0, docs0, oid0, w, docs, oid)
  {
  }

  /** The end of the `try` block of `Register`: `RegUser`, `Session["iduser"] = result["iduser"]`, `msg(redirect="/")`. */
  method EnrolUser(store: SessionStore, req: Request, signer: Signer, rng: Entropy, logs: LogStore,
                   users: UserTable, username: Value, password: Value, now: Instant) returns (body: Doc)
    requires store.Valid() && users.Valid()
    modifies store, req, rng, users
    ensures store.Valid() && users.Valid()
    ensures body == ToHome()
    ensures users.docs == old(users.docs) + [Enrolled(rng.draw(old(rng.count)), old(users.nextOid), username, password)]
    ensures users.nextOid == old(users.nextOid) + 1
    ensures World(store.records, req.pending, rng.count, logs.entries)
         == Stored(World(old(store.records), old(req.pending), old(rng.count), old(logs.entries)).(count := old(rng.count) + 1),
                   req.cookie, req.host, signer, rng.draw(old(rng.count) + 1), "iduser", Str(Hex(rng.draw(old(rng.count)))), now)
  {
    ghost var w0 := World(store.records, req.pending, rng.count, logs.entries);
    ghost var u0 := rng.draw(rng.count);
    var result := RegUser(users, rng, username, password);
    assert result.value["iduser"] == Str(Hex(u0));
    ghost var enrolled := users.docs;
    assert enrolled == old(users.docs) + [Enrolled(u0, old(users.nextOid), username, password)];
    ghost var w1 := World(store.records, req.pending, rng.count, logs.entries);
    assert w1 == w0.(count := w0.count + 1);
    RememberUser(store, req, signer, rng, logs, result.value["iduser"], now);
    body := Envelope(0, Text(""), map["redirect" := Str("/")]);
  }

  /**
   * With the three fields present, a registration goes ahead exactly when
   * the passwords are equal and the name is an accepted condition that no
   * stored user matches.
   */
  lemma EnrolIffFreeName(json: Result<Value, Exc>, docs: seq<Doc>, fields: map<string, Value>)
    requires json == Success(Obj(fields))
    requires "username" in fields && "password" in fields && "confirm_password" in fields
    ensures RegisterDecision(json, docs) == Enrol(fields["username"], fields["password"]) <==>
      && PyEq(fields["password"], fields["confirm_password"])
      && ConditionAccepted(fields["username"])
      && forall j :: 0 <= j < |docs| ==> !FieldMatches(docs[j], "username", fields["username"])
    ensures !PyEq(fields["password"], fields["confirm_password"]) ==> RegisterDecision(json, docs) == Mismatch
  {
  }

  /**
   * Registering the same body again, after the first registration was
   * stored, finds the name taken, for a name that is not an operator
   * document (see `OperatorNameRegistersTwice`).
   */
  lemma RegisterTwiceIsTaken(json: Result<Value, Exc>, docs: seq<Doc>, u: Uuid, oid: nat)
    requires RegisterDecision(json, docs).Enrol? && !IsOperatorDoc(RegisterDecision(json, docs).username)
    ensures var v := RegisterDecision(json, docs);
      RegisterDecision(json, docs + [Enrolled(u, oid, v.username, v.password)]) == NameTaken
  {
    var v := RegisterDecision(json, docs);
    var d := Enrolled(u, oid, v.username, v.password);
    assert FieldMatches(d, "username", v.username);
    assert (docs + [d])[|docs|] == d;
  }

  /**
   * A freshly registered user has no `status`, so the login verdict for any
   * body is what it was before the registration: the new account cannot
   * sign in until it is activated.
   */
  lemma EnrolledCannotSignIn(login: Result<Value, Exc>, docs: seq<Doc>, u: Uuid, oid: nat,
                             username: Value, password: Value)
    ensures LoginDecision(login, docs + [Enrolled(u, oid, username, password)]) == LoginDecision(login, docs)
  {
    var d := Enrolled(u, oid, username, password);
    assert "status" !in d;
    if Credentials(login).Success? {
      var (name, secret) := Credentials(login).value;
      RegisteredUserCannotLogIn(docs, d, name, secret);
    }
  }

  // ------------------------------------------- credentials that are operators

  /** A login body whose credentials are both `{"$ne": null}`. */
  function NotNullCredentials(): Value {
    Obj(map["username" := Obj(map["$ne" := Null]), "password" := Obj(map["$ne" := Null])])
  }

  /**
   * As written, the body `{"username": {"$ne": null}, "password": {"$ne": null}}`
   * signs in as the first stored user whenever that user is active and has
   * string credentials, whatever they are.
   */
  lemma OperatorBodySignsIn(docs: seq<Doc>)
    requires |docs| > 0 && "iduser" in docs[0] && "status" in docs[0] && docs[0]["status"] == Str("A")
    requires "username" in docs[0] && docs[0]["username"].Str? && "password" in docs[0] && docs[0]["password"].Str?
    ensures LoginDecision(Success(NotNullCredentials()), docs) == SignIn(docs[0]["iduser"])
  {
    var ne := Obj(map["$ne" := Null]);
    assert NotNullCredentials().fields["username"] == ne && NotNullCredentials().fields["password"] == ne;
    assert ne.fields.Keys == {"$ne"} && IsOperatorName("$ne");
    var query := LoginQuery(ne, ne);
    assert query["username"] == ne && query["password"] == ne && query["status"] == Str("A");
    assert Matches(docs[0], query);
    assert FirstMatch(docs, query) == Some(0);
  }

  /** The login with both credentials compared as values, each wrapped in `$eq`. */
  function LoginDecisionByValue(json: Result<Value, Exc>, docs: seq<Doc>): LoginVerdict {
    match Credentials(json)
    case Failure(e) => LoginRaises(e)
    case Success((username, password)) =>
      match GetUserLoginByValue(docs, username, password)
      case None => BadCredentials
      case Some(user) => Admit(user)
  }

  /**
   * Compared as values, the login is refused exactly when no stored user is
   * active and holds both credentials, and a sign-in carries the `iduser` of
   * such a user.
   */
  lemma LoginByValueNeedsCredentials(json: Result<Value, Exc>, docs: seq<Doc>, fields: map<string, Value>)
    requires json == Success(Obj(fields)) && "username" in fields && "password" in fields
    ensures LoginDecisionByValue(json, docs) == BadCredentials <==>
      forall j :: 0 <= j < |docs| ==> !ActiveWith(docs[j], fields["username"], fields["password"])
    ensures LoginDecisionByValue(json, docs).SignIn? ==>
      exists user :: user in docs && ActiveWith(user, fields["username"], fields["password"])
        && "iduser" in user && user["iduser"] == LoginDecisionByValue(json, docs).iduser
  {
    var found := GetUserLoginByValue(docs, fields["username"], fields["password"]);
    if found.Some? {
      assert "iduser" in found.value ==> LoginDecisionByValue(json, docs) == SignIn(found.value["iduser"]);
    }
  }

  /** Compared as values, the `$ne` body is refused while every stored name is a string. */
  lemma OperatorBodyRefusedByValue(docs: seq<Doc>)
    requires forall j :: 0 <= j < |docs| && "username" in docs[j] ==> docs[j]["username"].Str?
    ensures LoginDecisionByValue(Success(NotNullCredentials()), docs) == BadCredentials
  {
    var ne := Obj(map["$ne" := Null]);
    assert NotNullCredentials().fields["username"] == ne && NotNullCredentials().fields["password"] == ne;
    assert forall j :: 0 <= j < |docs| ==> !EqualsField(docs[j], "username", ne);
  }

  /** A registration body whose name is `{"$eq": "x"}`. */
  function EqNameBody(): Value {
    Obj(map["username" := ByValue(Str("x")), "password" := Str("p"), "confirm_password" := Str("p")])
  }

  /**
   * As written, the body with name `{"$eq": "x"}` registers on an empty
   * table and, once that document is stored, registers again: the stored
   * name is the object itself, which the lookup of `"x"` does not find.
   */
  lemma OperatorNameRegistersTwice(u: Uuid, oid: nat)
    ensures RegisterDecision(Success(EqNameBody()), []) == Enrol(ByValue(Str("x")), Str("p"))
    ensures RegisterDecision(Success(EqNameBody()), [Enrolled(u, oid, ByValue(Str("x")), Str("p"))])
         == Enrol(ByValue(Str("x")), Str("p"))
  {
    var body := EqNameBody();
    assert body.fields["username"] == ByValue(Str("x"));
    assert body.fields["password"] == Str("p") && body.fields["confirm_password"] == Str("p");
    ByValueIsEquality(Str("x"));
    var d := Enrolled(u, oid, ByValue(Str("x")), Str("p"));
    assert d["username"] == ByValue(Str("x"));
    assert !FieldMatches(d, "username", ByValue(Str("x")));
  }

  /** The registration with the name compared as a value, wrapped in `$eq`. */
  function RegisterDecisionByValue(json: Result<Value, Exc>, docs: seq<Doc>): RegisterVerdict {
    match RegistrationFields(json)
    case Failure(e) => RegisterRaises(e)
    case Success((username, password, confirm)) =>
      if !PyEq(password, confirm) then Mismatch
      else if GetUserByNameByValue(docs, username).Some? then NameTaken
      else Enrol(username, password)
  }

  /** Compared as values, registering the same body again always finds the name taken. */
  lemma RegisterTwiceIsTakenByValue(json: Result<Value, Exc>, docs: seq<Doc>, u: Uuid, oid: nat)
    requires RegisterDecisionByValue(json, docs).Enrol?
    ensures var v := RegisterDecisionByValue(json, docs);
      RegisterDecisionByValue(json, docs + [Enrolled(u, oid, v.username, v.password)]) == NameTaken
  {
    var v := RegisterDecisionByValue(json, docs);
    var d := Enrolled(u, oid, v.username, v.password);
    assert EqualsField(d, "username", v.username);
    assert (docs + [d])[|docs|] == d;
  }
}
