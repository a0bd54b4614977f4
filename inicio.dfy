/**
 * routes/RInicio.py: the login gate every request passes through
 * (`validate_login`), the home route `Inicio`, and `SecurityCheck`, which
 * compares the user id a page was rendered for with the one in the session.
 */
module Inicio {
  import opened Wrappers
  import opened Values
  import opened Signing
  import opened Clock
  import opened Uuids
  import opened Http
  import opened Sessions
  import opened Tools

  /** The path prefixes the gate lets through without a session. */
  const ExcludedPaths: seq<string> := [
    "/static",
    "/Login",
    "/Register",
    "/AdminLogin",
    "/test",
    "/favicon.ico",
    "/SecurityCheck",
    "/.well-known" + "/appspecific/com.chrome.devtools.json"
  ]

  /** Every allow-listed prefix starts with "/" and names something after it. */
  lemma ExcludedPathsRooted()
    ensures forall i :: 0 <= i < |ExcludedPaths| ==> 1 < |ExcludedPaths[i]| && ExcludedPaths[i][0] == '/'
  {
    forall i | 0 <= i < |ExcludedPaths|
      ensures 1 < |ExcludedPaths[i]| && ExcludedPaths[i][0] == '/'
    {
      if i == 0 { assert ExcludedPaths[i] == "/static"; }
      else if i == 1 { assert ExcludedPaths[i] == "/Login"; }
      else if i == 2 { assert ExcludedPaths[i] == "/Register"; }
      else if i == 3 { assert ExcludedPaths[i] == "/AdminLogin"; }
      else if i == 4 { assert ExcludedPaths[i] == "/test"; }
      else if i == 5 { assert ExcludedPaths[i] == "/favicon.ico"; }
      else if i == 6 { assert ExcludedPaths[i] == "/SecurityCheck"; }
    }
  }

  /** The path starts with one of the allow-listed prefixes. */
  predicate Public(path: string)
    ensures Public(path) ==> 0 < |path| && path[0] == '/'
    ensures "/Login" <= path ==> Public(path)
  {
    ExcludedPathsRooted();
    assert ExcludedPaths[1] == "/Login";
    exists i :: 0 <= i < |ExcludedPaths| && ExcludedPaths[i] <= path
  }

  /**
   * What the gate does with a request: let it through, deny it with the
   * "Login required" JSON body, or redirect it.
   */
  datatype Gate = Pass | Deny | RedirectTo(location: string)

  /** The body a POST without a session gets. */
  function LoginRequired(): Doc {
    Envelope(1, Text("Login required"), map["redirect" := Str("/Login")])
  }

  /** What `validate_login` returns to Flask: nothing for a pass, else the response that ends the request. */
  function GateResponse(gate: Gate): (r: Option<Response>)
    ensures r.None? <==> gate == Pass
    ensures r.Some? && r.value.Redirect? ==> gate == RedirectTo(r.value.location)
  {
    match gate
    case Pass => None
    case Deny => Some(Json(LoginRequired()))
    case RedirectTo(location) => Some(Redirect(location))
  }

  /** The warning logged before a denial: who tried which path. */
  function LoginRequiredLog(realIp: Option<string>, remoteAddr: string, path: string): string {
    ClientIp(realIp, remoteAddr) + " tried to access " + path + " without logging in"
  }

  /**
   * The gate's decision, given whether the session has the key `iduser` and
   * what `Session.get("iduser")` returns: a POST needs the key, a GET needs
   * a truthy value, other methods and allow-listed paths always pass.
   */
  function Decide(path: string, verb: string, hasKey: bool, iduser: Value): (g: Gate)
    ensures Public(path) ==> g == Pass
    ensures g == Deny <==> !Public(path) && verb == "POST" && !hasKey
    ensures g.RedirectTo? <==> !Public(path) && verb == "GET" && !Truthy(iduser)
    ensures g.RedirectTo? ==> g.location == "/Login"
    ensures verb != "GET" && verb != "POST" ==> g == Pass
  {
    if Public(path) then Pass
    else if verb == "POST" && !hasKey then Deny
    else if !Truthy(iduser) && verb == "GET" then RedirectTo("/Login")
    else Pass
  }

  /** The warning written before a denial, with the `idlog` made from random value `u`. */
  function DenialEntry(u: Uuid, realIp: Option<string>, remoteAddr: string, path: string, now: Instant): LogEntry {
    LogEntry(u, now, Warning, LoginRequiredLog(realIp, remoteAddr, path))
  }

  /** What a request handler can change: the session records, the response's cookies, the random stream and the log. */
  datatype World = World(records: Records, pending: seq<CookieAction>, count: nat, entries: seq<LogEntry>)

  /**
   * The world after a gated POST, given the id the first session resolved to,
   * the id a second one would resolve to, the draws one resolution takes, and
   * the warning a denial writes: when the first session lacks `iduser`, the
   * warning and the denial; otherwise the second session and a pass.
   */
  ghost predicate GatedPost(w0: World, w: World, gate: Gate, signer: Signer, host: string, now: Instant,
                            id: string, second: string, d: nat, denial: LogEntry)
  {
    if "iduser" in DataAt(w0.records, id) then
      && gate == Pass
      && w.records == TouchAt(TouchAt(w0.records, id, now), second, now)
      && w.pending == w0.pending + [SessionCookie(signer, id, host), SessionCookie(signer, second, host)]
      && w.count == w0.count + 2 * d
      && w.entries == w0.entries
    else
      && gate == Deny
      && w.records == TouchAt(w0.records, id, now)
      && w.pending == w0.pending + [SessionCookie(signer, id, host)]
      && w.count == w0.count + d + 1
      && w.entries == w0.entries + [denial]
  }

  /** The world after any other gated request: one session built; a GET with a falsy `iduser` logs and is redirected. */
  ghost predicate GatedOther(w0: World, w: World, gate: Gate, signer: Signer, host: string, now: Instant,
                             verb: string, id: string, d: nat, denial: LogEntry)
  {
    && w.records == TouchAt(w0.records, id, now)
    && w.pending == w0.pending + [SessionCookie(signer, id, host)]
    && if verb == "GET" && !Truthy(GetAt(w0.records, id, "iduser")) then
         && gate == RedirectTo("/Login")
         && w.count == w0.count + d + 1
         && w.entries == w0.entries + [denial]
       else
         && gate == Pass
         && w.count == w0.count + d
         && w.entries == w0.entries
  }

  /**
   * What a gated POST leads to, from world `w0` to world `w`: the id the
   * request's session resolves to (from the draws `w0.count` on), the gate
   * `Decide` gives for that session's record, and `GatedPost` with the id a
   * second session resolves to and the warning made from the draw after it.
   */
  ghost predicate PostOutcome(req: Request, signer: Signer, rng: Entropy, now: Instant, w0: World, w: World, gate: Gate) {
    var d := Draws(None, req.cookie, signer);
    var id := ResolveOn(req, signer, rng, None, w0.count);
    && gate == Decide(req.path, req.verb, "iduser" in DataAt(w0.records, id), GetAt(w0.records, id, "iduser"))
    && GatedPost(w0, w, gate, signer, req.host, now, id, ResolveOn(req, signer, rng, None, w0.count + d), d,
                 DenialEntry(rng.draw(w0.count + d), req.realIp, req.remoteAddr, req.path, now))
  }

  /** What any other gated request leads to: the gate `Decide` gives, and `GatedOther`. */
  ghost predicate OtherOutcome(req: Request, signer: Signer, rng: Entropy, now: Instant, w0: World, w: World, gate: Gate) {
    var d := Draws(None, req.cookie, signer);
    var id := ResolveOn(req, signer, rng, None, w0.count);
    && gate == Decide(req.path, req.verb, "iduser" in DataAt(w0.records, id), GetAt(w0.records, id, "iduser"))
    && GatedOther(w0, w, gate, signer, req.host, now, req.verb, id, d,
                  DenialEntry(rng.draw(w0.count + d), req.realIp, req.remoteAddr, req.path, now))
  }

  /**
   * `validate_login`.  For a POST, `"iduser" in Session` builds one session;
   * when that passes, `Session.get("iduser")` builds another.  Other methods
   * build only the second.  A denial logs a warning first.
   */
  method ValidateLogin(store: SessionStore, req: Request, signer: Signer, rng: Entropy,
                       logs: LogStore, now: Instant) returns (gate: Gate)
    requires store.Valid()
    modifies store, req, rng, logs
    ensures store.Valid()
    ensures Public(req.path) ==>
      && gate == Pass
      && store.records == old(store.records) && req.pending == old(req.pending)
      && rng.count == old(rng.count) && logs.entries == old(logs.entries)
    ensures !Public(req.path) && req.verb == "POST" ==>
      PostOutcome(req, signer, rng, now, World(old(store.records), old(req.pending), old(rng.count), old(logs.entries)),
                  World(store.records, req.pending, rng.count, logs.entries), gate)
    ensures !Public(req.path) && req.verb != "POST" ==>
      OtherOutcome(req, signer, rng, now, World(old(store.records), old(req.pending), old(rng.count), old(logs.entries)),
                   World(store.records, req.pending, rng.count, logs.entries), gate)
  {
    if Public(req.path) {
      return Pass;
    }
    if req.verb == "POST" {
      gate := PostBranch(store, req, signer, rng, logs, now);
    } else {
      gate := OtherBranch(store, req, signer, rng, logs, now);
    }
  }

  /** A POST to a gated path: what `validate_login` does with it, in one step. */
  method PostBranch(store: SessionStore, req: Request, signer: Signer, rng: Entropy,
                    logs: LogStore, now: Instant) returns (gate: Gate)
    requires store.Valid() && !Public(req.path) && req.verb == "POST"
    modifies store, req, rng, logs
    ensures store.Valid()
    ensures PostOutcome(req, signer, rng, now, World(old(store.records), old(req.pending), old(rng.count), old(logs.entries)),
                        World(store.records, req.pending, rng.count, logs.entries), gate)
  {
    ghost var mid;
    gate, mid := GatePost(store, req, signer, rng, logs, now);
    PostStepsCompose(req, signer, rng, now, World(old(store.records), old(req.pending), old(rng.count), old(logs.entries)),
                     mid, World(store.records, req.pending, rng.count, logs.entries), gate);
  }

  /** Any other method on a gated path: what `validate_login` does with it, in one step. */
  method OtherBranch(store: SessionStore, req: Request, signer: Signer, rng: Entropy,
                     logs: LogStore, now: Instant) returns (gate: Gate)
    requires store.Valid() && !Public(req.path) && req.verb != "POST"
    modifies store, req, rng, logs
    ensures store.Valid()
    ensures OtherOutcome(req, signer, rng, now, World(old(store.records), old(req.pending), old(rng.count), old(logs.entries)),
                         World(store.records, req.pending, rng.count, logs.entries), gate)
  {
    ghost var mid;
    gate, mid := GateOther(store, req, signer, rng, logs, now);
    OtherStepsCompose(req, signer, rng, now, World(old(store.records), old(req.pending), old(rng.count), old(logs.entries)),
                      mid, World(store.records, req.pending, rng.count, logs.entries), gate);
  }

  /** `tools.escribir_log(MSG_LOGIN_REQ, "warning")`. */
  method LogDenial(logs: LogStore, rng: Entropy, req: Request, now: Instant)
    modifies logs, rng
    ensures rng.count == old(rng.count) + 1
    ensures logs.entries == old(logs.entries) + [DenialEntry(rng.draw(old(rng.count)), req.realIp, req.remoteAddr, req.path, now)]
  {
    var message := Text(LoginRequiredLog(req.realIp, req.remoteAddr, req.path));
    WriteLog(logs, rng, message, SStr("warning"), now);
    WarningStatus(message);
  }

  /** One session built on `id`: touched, its cookie scheduled, `d` draws taken, nothing logged. */
  ghost predicate Built(w0: World, w: World, signer: Signer, host: string, now: Instant, id: string, d: nat) {
    && w.records == TouchAt(w0.records, id, now)
    && w.pending == w0.pending + [SessionCookie(signer, id, host)]
    && w.count == w0.count + d
    && w.entries == w0.entries
  }

  /**
   * The POST branch step by step: from `w0` the first session builds `mid`;
   * if it holds `iduser`, a second session builds `w` from `mid`; if not,
   * `w` is `mid` plus the warning made from the next draw.
   */
  ghost predicate PostSteps(req: Request, signer: Signer, rng: Entropy, now: Instant,
                            w0: World, mid: World, w: World, gate: Gate)
  {
    var d := Draws(None, req.cookie, signer);
    var id := ResolveOn(req, signer, rng, None, w0.count);
    && Built(w0, mid, signer, req.host, now, id, d)
    && ("iduser" in DataAt(w0.records, id) ==>
          gate == Pass && Built(mid, w, signer, req.host, now, ResolveOn(req, signer, rng, None, w0.count + d), d))
    && ("iduser" !in DataAt(w0.records, id) ==>
          && gate == Deny
          && w == mid.(count := mid.count + 1,
                       entries := mid.entries + [DenialEntry(rng.draw(w0.count + d), req.realIp, req.remoteAddr, req.path, now)]))
  }

  /**
   * Any other method step by step: one session builds `mid` from `w0`; a GET
   * whose `iduser` is falsy adds the warning made from the next draw.
   */
  ghost predicate OtherSteps(req: Request, signer: Signer, rng: Entropy, now: Instant,
                             w0: World, mid: World, w: World, gate: Gate)
  {
    var d := Draws(None, req.cookie, signer);
    var id := ResolveOn(req, signer, rng, None, w0.count);
    && Built(w0, mid, signer, req.host, now, id, d)
    && (req.verb == "GET" && !Truthy(GetAt(w0.records, id, "iduser")) ==>
          && gate == RedirectTo("/Login")
          && w == mid.(count := mid.count + 1,
                       entries := mid.entries + [DenialEntry(rng.draw(w0.count + d), req.realIp, req.remoteAddr, req.path, now)]))
    && (!(req.verb == "GET" && !Truthy(GetAt(w0.records, id, "iduser"))) ==> gate == Pass && w == mid)
  }

  /** The POST branch of `validate_login`, step by step; `mid` names the world after the first session. */
  method GatePost(store: SessionStore, req: Request, signer: Signer, rng: Entropy,
                  logs: LogStore, now: Instant) returns (gate: Gate, ghost mid: World)
    requires store.Valid() && req.verb == "POST"
    modifies store, req, rng, logs
    ensures store.Valid()
    ensures PostSteps(req, signer, rng, now, World(old(store.records), old(req.pending), old(rng.count), old(logs.entries)),
                     mid, World(store.records, req.pending, rng.count, logs.entries), gate)
  {
    var hasKey := Contains(store, req, signer, rng, "iduser", now);
    mid := World(store.records, req.pending, rng.count, logs.entries);
    if !hasKey {
      LogDenial(logs, rng, req, now);
      return Deny, mid;
    }
    var iduser := MetaGet(store, req, signer, rng, "iduser", None, now);
    gate := Pass;
  }

  /** The branch of `validate_login` for every method but POST. */
  method GateOther(store: SessionStore, req: Request, signer: Signer, rng: Entropy,
                   logs: LogStore, now: Instant) returns (gate: Gate, ghost mid: World)
    requires store.Valid() && req.verb != "POST"
    modifies store, req, rng, logs
    ensures store.Valid()
    ensures OtherSteps(req, signer, rng, now, World(old(store.records), old(req.pending), old(rng.count), old(logs.entries)),
                     mid, World(store.records, req.pending, rng.count, logs.entries), gate)
  {
    var iduser := MetaGet(store, req, signer, rng, "iduser", None, now);
    mid := World(store.records, req.pending, rng.count, logs.entries);
    if !Truthy(iduser) && req.verb == "GET" {
      LogDenial(logs, rng, req, now);
      gate := RedirectTo("/Login");
    } else {
      gate := Pass;
    }
  }

  /** The two steps of the POST branch make up its outcome. */
  lemma PostStepsCompose(req: Request, signer: Signer, rng: Entropy, now: Instant,
                         w0: World, mid: World, w: World, gate: Gate)
    requires !Public(req.path) && req.verb == "POST"
    requires PostSteps(req, signer, rng, now, w0, mid, w, gate)
    ensures PostOutcome(req, signer, rng, now, w0, w, gate)
  {
    if "iduser" in DataAt(w0.records, ResolveOn(req, signer, rng, None, w0.count)) {
      PassedPostCompose(req, signer, rng, now, w0, mid, w, gate);
    } else {
      DeniedPostCompose(req, signer, rng, now, w0, mid, w, gate);
    }
  }

  /** A POST whose first session holds `iduser`: two sessions built, and a pass. */
  lemma PassedPostCompose(req: Request, signer: Signer, rng: Entropy, now: Instant,
                          w0: World, mid: World, w: World, gate: Gate)
    requires !Public(req.path) && req.verb == "POST"
    requires PostSteps(req, signer, rng, now, w0, mid, w, gate)
    requires "iduser" in DataAt(w0.records, ResolveOn(req, signer, rng, None, w0.count))
    ensures PostOutcome(req, signer, rng, now, w0, w, gate)
  {
    var d := Draws(None, req.cookie, signer);
    var id := ResolveOn(req, signer, rng, None, w0.count);
    var second := ResolveOn(req, signer, rng, None, w0.count + d);
    KeyedPostPasses(req.path, GetAt(w0.records, id, "iduser"));
    PassedPostWorld(w0, mid, w, signer, req.host, now, id, second, d,
                    DenialEntry(rng.draw(w0.count + d), req.realIp, req.remoteAddr, req.path, now));
  }

  /** Outside the allow-list, a POST whose session has the key passes. */
  lemma KeyedPostPasses(path: string, iduser: Value)
    requires !Public(path)
    ensures Decide(path, "POST", true, iduser) == Pass
  {
  }

  /** Two sessions built one after the other make up the world of a passed POST. */
  lemma PassedPostWorld(w0: World, mid: World, w: World, signer: Signer, host: string, now: Instant,
                        id: string, second: string, d: nat, denial: LogEntry)
    requires "iduser" in DataAt(w0.records, id)
    requires Built(w0, mid, signer, host, now, id, d) && Built(mid, w, signer, host, now, second, d)
    ensures GatedPost(w0, w, Pass, signer, host, now, id, second, d, denial)
  {
    assert w.pending == w0.pending + [SessionCookie(signer, id, host)] + [SessionCookie(signer, second, host)];
  }

  /** A POST whose first session lacks `iduser`: one session built, the warning, and a denial. */
  lemma DeniedPostCompose(req: Request, signer: Signer, rng: Entropy, now: Instant,
                          w0: World, mid: World, w: World, gate: Gate)
    requires !Public(req.path) && req.verb == "POST"
    requires PostSteps(req, signer, rng, now, w0, mid, w, gate)
    requires "iduser" !in DataAt(w0.records, ResolveOn(req, signer, rng, None, w0.count))
    ensures PostOutcome(req, signer, rng, now, w0, w, gate)
  {
    assert mid.count == w0.count + Draws(None, req.cookie, signer);
  }

  /** The steps of any other method make up its outcome. */
  lemma OtherStepsCompose(req: Request, signer: Signer, rng: Entropy, now: Instant,
                          w0: World, mid: World, w: World, gate: Gate)
    requires !Public(req.path) && req.verb != "POST"
    requires OtherSteps(req, signer, rng, now, w0, mid, w, gate)
    ensures OtherOutcome(req, signer, rng, now, w0, w, gate)
  {
    assert mid.count == w0.count + Draws(None, req.cookie, signer);
  }

  /** Every denial writes exactly one warning, a pass writes nothing, and no session's data changes. */
  lemma DenialsLogOnce(w0: World, w: World, gate: Gate, signer: Signer, host: string, now: Instant,
                       verb: string, id: string, second: string, d: nat, denial: LogEntry)
    requires denial.level == Warning
    requires verb == "POST" ==> GatedPost(w0, w, gate, signer, host, now, id, second, d, denial)
    requires verb != "POST" ==> GatedOther(w0, w, gate, signer, host, now, verb, id, d, denial)
    ensures gate == Pass ==> w.entries == w0.entries
    ensures gate != Pass ==> |w.entries| == |w0.entries| + 1 && w.entries[|w0.entries|].level == Warning
    ensures forall x :: DataAt(w.records, x) == DataAt(w0.records, x)
  {
    forall x ensures DataAt(w.records, x) == DataAt(w0.records, x) {
      TouchKeepsData(w0.records, id, now, x);
      TouchKeepsData(TouchAt(w0.records, id, now), second, now, x);
    }
  }

  // --------------------------------------------------- the gate's decisions

  /** An allow-listed prefix opens every path that starts with it, e.g. "/Login" + anything. */
  lemma PublicPrefix(i: nat, rest: string)
    requires i < |ExcludedPaths|
    ensures Public(ExcludedPaths[i] + rest)
    ensures forall verb, hasKey, iduser :: Decide(ExcludedPaths[i] + rest, verb, hasKey, iduser) == Pass
  {
    assert ExcludedPaths[i] <= ExcludedPaths[i] + rest;
  }

  /** The root path is not allow-listed. */
  lemma RootIsGated()
    ensures !Public("/")
  {
    forall i | 0 <= i < |ExcludedPaths|
      ensures !(ExcludedPaths[i] <= "/")
    {
      assert |ExcludedPaths[i]| > 1;
    }
  }

  /** Outside the allow-list, a POST is denied exactly when the session lacks the key, with the "Login required" body. */
  lemma PostDeniedIffNoKey(path: string, hasKey: bool, iduser: Value)
    requires !Public(path)
    ensures Decide(path, "POST", hasKey, iduser) == if hasKey then Pass else Deny
  {
  }

  /** Outside the allow-list, a GET is redirected to the login page exactly when `iduser` is falsy or absent. */
  lemma GetRedirectedIffFalsy(path: string, hasKey: bool, iduser: Value)
    requires !Public(path)
    ensures Decide(path, "GET", hasKey, iduser) == if Truthy(iduser) then Pass else RedirectTo("/Login")
  {
  }

  /** Methods other than GET and POST are never stopped. */
  lemma OtherMethodsPass(path: string, verb: string, hasKey: bool, iduser: Value)
    requires verb != "GET" && verb != "POST"
    ensures Decide(path, verb, hasKey, iduser) == Pass
  {
  }

  /** A session holding `iduser` with a falsy value lets POSTs through but not GETs. */
  lemma FalsyIdPostOnly(path: string)
    requires !Public(path)
    ensures Decide(path, "POST", true, Str("")) == Pass
    ensures Decide(path, "GET", true, Str("")) == RedirectTo("/Login")
  {
  }

  /** On one stored session, whatever passes as a GET passes as a POST (a truthy value is a present key). */
  lemma GetPassImpliesPostPass(records: Records, id: string, path: string)
    requires NoNulls(records)
    requires Decide(path, "GET", "iduser" in DataAt(records, id), GetAt(records, id, "iduser")) == Pass
    ensures Decide(path, "POST", "iduser" in DataAt(records, id), GetAt(records, id, "iduser")) == Pass
  {
    if !Public(path) {
      GetNoneIffAbsent(records, id, "iduser");
    }
  }

  /** A session the store has no record of is stopped on every gated path, by POST and by GET alike. */
  lemma UnknownSessionStopped(records: Records, id: string, path: string)
    requires id !in records && !Public(path)
    ensures Decide(path, "POST", "iduser" in DataAt(records, id), GetAt(records, id, "iduser")).Deny?
    ensures Decide(path, "GET", "iduser" in DataAt(records, id), GetAt(records, id, "iduser")) == RedirectTo("/Login")
  {
  }

  /** The denial body: status 1, "Login required", and a redirect to the login page. */
  lemma LoginRequiredBody()
    ensures LoginRequired().Keys == {"status", "msg", "redirect"}
    ensures LoginRequired()["status"] == Int(1) && LoginRequired()["msg"] == Str("Login required")
    ensures LoginRequired()["redirect"] == Str("/Login")
  {
  }

  // ---------------------------------------------------------------- Inicio

  /** Where `Inicio` sends the visitor: the login page when `iduser` is `None`, the start page otherwise. */
  function InicioTarget(iduser: Value): (loc: string)
    ensures loc == "/Login" <==> iduser == Null
    ensures loc == "/VariablesDeInicio" <==> iduser != Null
  {
    if iduser == Null then "/Login" else "/VariablesDeInicio"
  }

  /** `Inicio`: one `Session.get("iduser")` and a redirect. */
  method Inicio(store: SessionStore, req: Request, signer: Signer, rng: Entropy, now: Instant)
    returns (resp: Response)
    requires store.Valid()
    modifies store, req, rng
    ensures var id := ResolveOn(req, signer, rng, None, old(rng.count));
      && resp == Redirect(InicioTarget(GetAt(old(store.records), id, "iduser")))
      && store.records == TouchAt(old(store.records), id, now) && store.Valid()
      && req.pending == old(req.pending) + [SessionCookie(signer, id, req.host)]
    ensures rng.count == old(rng.count) + Draws(None, req.cookie, signer)
  {
    var iduser := MetaGet(store, req, signer, rng, "iduser", None, now);
    if iduser == Null {
      return Redirect("/Login");
    }
    return Redirect("/VariablesDeInicio");
  }

  /**
   * A GET of "/" that the gate let through reaches the start page; the two
   * tests differ only for a falsy `iduser`, which `Inicio` alone would accept.
   */
  lemma HomeAfterGate(iduser: Value, hasKey: bool)
    requires Decide("/", "GET", hasKey, iduser) == Pass
    ensures InicioTarget(iduser) == "/VariablesDeInicio"
    ensures InicioTarget(Str("")) == "/VariablesDeInicio"
    ensures Decide("/", "GET", hasKey, Str("")) == RedirectTo("/Login")
  {
    RootIsGated();
  }

  // --------------------------------------------------------- SecurityCheck

  /** The check fails when the page's id differs from the typed one or from the session's (Python `!=`). */
  predicate CheckFails(constId: Value, inputId: Value, realId: Value) {
    !PyEq(constId, inputId) || !PyEq(constId, realId)
  }

  /** The answer to a failed check. */
  function CheckFailed(): Doc {
    Envelope(1, Text("Security check failed"), map["redirect__" := Str("/Login")])
  }

  /** `SecurityCheck`, after the two body fields were read. */
  method CompareIds(store: SessionStore, req: Request, signer: Signer, rng: Entropy,
                    constId: Value, inputId: Value, now: Instant) returns (resp: Doc)
    requires store.Valid()
    modifies store, req, rng
    ensures var id := ResolveOn(req, signer, rng, None, old(rng.count));
      var realId := GetAt(old(store.records), id, "iduser");
      var touched := TouchAt(old(store.records), id, now);
      && rng.count == old(rng.count) + Draws(None, req.cookie, signer)
      && store.Valid()
      && (CheckFails(constId, inputId, realId) ==>
            && resp == CheckFailed()
            && store.records == ClearedRecords(touched, req.cookie, signer)
            && req.pending == old(req.pending) + [SessionCookie(signer, id, req.host)] + ClearActions(req.cookie, req.host))
      && (!CheckFails(constId, inputId, realId) ==>
            && resp == Envelope(0, Text(""), map[])
            && store.records == touched
            && req.pending == old(req.pending) + [SessionCookie(signer, id, req.host)])
  {
    ghost var id := ResolveOn(req, signer, rng, None, rng.count);
    ghost var touched := TouchAt(store.records, id, now);
    var realId := MetaGet(store, req, signer, rng, "iduser", None, now);
    assert store.records == touched;
    ghost var pending := req.pending;
    if CheckFails(constId, inputId, realId) {
      Clear(store, req, signer);
      assert req.pending == pending + ClearActions(req.cookie, req.host);
      resp := CheckFailed();
    } else {
      resp := Envelope(0, Text(""), map[]);
    }
  }

  /**
   * `SecurityCheck`: read `const_iduser` and `input_iduser` from the JSON
   * body, compare them with the session's `iduser`; on failure log the
   * session out.  Anything raised on the way (no body, a missing field) is
   * answered by `msg_err`, which logs it, and the session is not touched.
   */
  method SecurityCheck(store: SessionStore, req: Request, signer: Signer, rng: Entropy,
                       logs: LogStore, now: Instant) returns (resp: Doc)
    requires store.Valid()
    modifies store, req, rng, logs
    ensures store.Valid()
    ensures "status" in resp && (resp["status"] == Int(0) || resp["status"] == Int(1))
    ensures ReadIds(req.json).Failure? ==>
      && resp == Envelope(1, Raised(ReadIds(req.json).error), map[])
      && store.records == old(store.records) && req.pending == old(req.pending)
      && rng.count == old(rng.count) + 1
      && logs.entries == old(logs.entries) + [LogEntry(rng.draw(old(rng.count)), now, Error,
           ExcText(ReadIds(req.json).error))]
    ensures ReadIds(req.json).Success? ==>
      var (constId, inputId) := ReadIds(req.json).value;
      var id := ResolveOn(req, signer, rng, None, old(rng.count));
      var realId := GetAt(old(store.records), id, "iduser");
      && logs.entries == old(logs.entries)
      && rng.count == old(rng.count) + Draws(None, req.cookie, signer)
      && (resp == CheckFailed() <==> CheckFails(constId, inputId, realId))
      && (resp == Envelope(0, Text(""), map[]) <==> !CheckFails(constId, inputId, realId))
      && (CheckFails(constId, inputId, realId) ==>
            && store.records == ClearedRecords(TouchAt(old(store.records), id, now), req.cookie, signer)
            && req.pending == old(req.pending) + [SessionCookie(signer, id, req.host)] + ClearActions(req.cookie, req.host))
      && (!CheckFails(constId, inputId, realId) ==>
            && store.records == TouchAt(old(store.records), id, now)
            && req.pending == old(req.pending) + [SessionCookie(signer, id, req.host)])
  {
    var read := ReadIds(req.json);
    if read.Failure? {
      resp := MsgErr(logs, rng, read.error, now);
      return;
    }
    var (constId, inputId) := read.value;
    resp := CompareIds(store, req, signer, rng, constId, inputId, now);
    assert CheckFailed() != Envelope(0, Text(""), map[]) by {
      assert CheckFailed()["status"] == Int(1);
    }
  }

  /** `data = request.get_json()`, then `data["const_iduser"]` and `data["input_iduser"]`, in that order. */
  function ReadIds(json: Result<Value, Exc>): (r: Result<(Value, Value), Exc>)
    ensures r.Success? <==>
      json.Success? && json.value.Obj? && "const_iduser" in json.value.fields && "input_iduser" in json.value.fields
    ensures r.Success? ==> r.value == (json.value.fields["const_iduser"], json.value.fields["input_iduser"])
    ensures json.Failure? ==> r == Failure(json.error)
    ensures json.Success? && json.value.Obj? && "const_iduser" !in json.value.fields ==>
      r == Failure(KeyError("const_iduser"))
    ensures json.Success? && json.value.Obj? && "const_iduser" in json.value.fields && "input_iduser" !in json.value.fields ==>
      r == Failure(KeyError("input_iduser"))
  {
    match json
    case Failure(e) => Failure(e)
    case Success(data) =>
      match Subscript(data, "const_iduser")
      case Failure(e) => Failure(e)
      case Success(c) =>
        match Subscript(data, "input_iduser")
        case Failure(e) => Failure(e)
        case Success(i) => Success((c, i))
  }

  /** Python `==` on these values is transitive, so a passed check means all three ids agree. */
  lemma PassedCheckAgrees(constId: Value, inputId: Value, realId: Value)
    requires !CheckFails(constId, inputId, realId)
    ensures PyEq(inputId, realId) && PyEq(realId, inputId)
  {
    PyEqSymmetric(constId, inputId);
    PyEqTransitive(inputId, constId, realId);
    PyEqSymmetric(inputId, realId);
  }

  /** A failed check with a validly signed cookie deletes that session's record. */
  lemma FailedCheckLogsOut(records: Records, signer: Signer, i: string, now: Instant)
    requires WellFormed(signer) && i != ""
    ensures i !in ClearedRecords(TouchAt(records, i, now), Some(Sign(signer, i)), signer)
  {
    SignedCookieResolves(signer, i, "");
  }
}
