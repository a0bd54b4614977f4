/**
 * The parts of a Flask request and response the core reads and writes: the
 * request's path, method, host, client address, `idsession` cookie and JSON
 * body, and the `after_this_request` callbacks, each of which sets one cookie
 * on the response.
 */
module Http {
  import opened Wrappers
  import opened Values

  /** One `response.set_cookie(...)` call, scheduled to run on the response. */
  datatype CookieAction = SetCookie(
    name: string,
    value: string,
    maxAge: nat,
    httpOnly: bool,
    secure: bool,
    sameSite: string)

  /** What a handler returns: a dict Flask sends as JSON, a redirect, or a rendered template. */
  datatype Response = Json(body: Doc) | Redirect(location: string) | Render(template: string)

  /** One request in flight. Only `pending` changes while it is handled. */
  class Request {
    const path: string
    const verb: string                 // `request.method`
    const host: string                 // `request.host`, possibly with ":port"
    const remoteAddr: string           // `request.remote_addr`
    const realIp: Option<string>       // the `X-Real-IP` header, if the proxy sent one
    const cookie: Option<string>       // `request.cookies.get("idsession")`
    const json: Result<Value, Exc>     // `request.get_json()`, or what it raises
    var pending: seq<CookieAction>     // `after_this_request` callbacks, in registration order

    constructor (path: string, verb: string, host: string, remoteAddr: string,
                 realIp: Option<string>, cookie: Option<string>, json: Result<Value, Exc>)
      ensures this.path == path && this.verb == verb && this.host == host
      ensures this.remoteAddr == remoteAddr && this.realIp == realIp
      ensures this.cookie == cookie && this.json == json
      ensures pending == []
    {
      this.path := path;
      this.verb := verb;
      this.host := host;
      this.remoteAddr := remoteAddr;
      this.realIp := realIp;
      this.cookie := cookie;
      this.json := json;
      pending := [];
    }
  }

  /** `host.split(":")[0]`: the host up to its first colon. */
  function HostName(host: string): (r: string)
    ensures r <= host && ':' !in r
  {
    if host == [] || host[0] == ':' then [] else [host[0]] + HostName(host[1..])
  }

  /** The host name is a colon-free prefix of the host, and either all of it or followed by a colon. */
  lemma {:induction false} HostNameShape(host: string)
    ensures var h := HostName(host);
      && h <= host && ':' !in h
      && (h == host || (|h| < |host| && host[|h|] == ':'))
  {
    if host != [] && host[0] != ':' {
      HostNameShape(host[1..]);
    }
  }

  /** The development hosts for which cookies are not marked `Secure`. */
  predicate IsLocal(host: string)
    ensures IsLocal(host) ==>
      && 9 <= |host| && (host[..9] == "127.0.0.1" || host[..9] == "localhost")
      && (|host| == 9 || host[9] == ':')
  {
    var h := HostName(host);
    if h == "127.0.0.1" || h == "localhost" then
      HostNameShape(host);
      assert host[..9] == h;
      true
    else false
  }

  /** `request.environ.get('HTTP_X_REAL_IP', request.remote_addr)`. */
  function ClientIp(realIp: Option<string>, remoteAddr: string): (r: string)
    ensures realIp.Some? ==> r == realIp.value
    ensures realIp.None? ==> r == remoteAddr
  {
    realIp.GetOr(remoteAddr)
  }
}
