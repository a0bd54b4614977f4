/**
 * The server-side session of utils/conexion.py.
 *
 * The `session_col` collection is a `SessionStore` object holding a map from
 * session id to record; a record is the `__last_acceded` instant and the
 * `__data` dict.  A `Session` object is one resolved id (the `idsession`
 * attribute) bound to the store and to the request whose cookie it read.  The
 * metaclass operations (`Session[key]`, `Session[key] = v`, `key in Session`,
 * `Session.to_dict()`) are module-level methods: each builds a new `Session`
 * exactly as the metaclass does.  `Session.clear()` is a class method: it
 * reads the cookie itself and builds no `Session`.
 *
 * The pure functions `TouchAt`, `SetAt`, `GetAt`, `DataAt` and
 * `ClearedRecords` state what the store operations do; the methods are proved
 * against them and the lemmas state the properties of the functions.
 *
 * A write `$set`s the path `__data.<key>`, so a key with dots writes into
 * nested objects and a key MongoDB refuses as a path raises after the touch;
 * a read looks the key up as it is, one level down.
 */
module Sessions {
  import opened Wrappers
  import opened Values
  import opened Signing
  import opened Clock
  import opened Uuids
  import opened Http

  const CookieName: string := "idsession"
  /** `60 * 60 * 24 * 365` seconds. */
  const OneYear: nat := 31536000

  /** One document of `session_col`: `__last_acceded` and `__data`. */
  datatype Record = Record(lastAccessed: Instant, data: Doc)

  type Records = map<string, Record>

  /** No record stores `None` under a key: `__setitem__` skips such writes. */
  ghost predicate NoNulls(records: Records) {
    forall id, k :: id in records && k in records[id].data ==> records[id].data[k] != Null
  }

  // ------------------------------------------------ the store's operations

  /** `find_one({"__idsession": id})` then `.get("__data", {})`, or `{}` when there is no record. */
  function DataAt(records: Records, id: string): Doc {
    if id in records then records[id].data else map[]
  }

  /** The stored value of `key` in session `id`, or `None`. */
  function GetAt(records: Records, id: string, key: string): (r: Value)
    ensures r != Null ==> id in records && key in records[id].data && r == records[id].data[key]
  {
    GetKey(DataAt(records, id), key)
  }

  /** `_update_last_acceded`: upsert `__last_acceded = now` on the record of `id`. */
  function TouchAt(records: Records, id: string, now: Instant): (r: Records)
    ensures r.Keys == records.Keys + {id}
    ensures r[id].lastAccessed == now
  {
    records[id := Record(now, DataAt(records, id))]
  }

  // ------------------------------------------------------ dotted paths

  /** The field names of the path `__data.<key>` below `__data`: `key` split at every `.`. */
  function Segments(key: string): (r: seq<string>)
    ensures |r| >= 1 && |r[0]| <= |key|
    ensures '.' !in key ==> r == [key]
    ensures '.' in key ==> |r[0]| < |key|
    decreases |key|
  {
    match LastIndexOf(key, '.')
    case None => [key]
    case Some(i) => Segments(key[..i]) + [key[i + 1..]]
  }

  /** The names on a path, joined again with `.`. */
  function Join(path: seq<string>): string
    requires |path| >= 1
  {
    if |path| == 1 then path[0] else Join(path[..|path| - 1]) + "." + path[|path| - 1]
  }

  /** Splitting a key and joining the pieces gives the key back, and no piece holds a `.`. */
  lemma {:induction false} SegmentsJoin(key: string)
    ensures Join(Segments(key)) == key
    ensures forall j :: 0 <= j < |Segments(key)| ==> '.' !in Segments(key)[j]
    decreases |key|
  {
    match LastIndexOf(key, '.')
    case None =>
    case Some(i) =>
      SegmentsJoin(key[..i]);
      var path := Segments(key);
      assert path[..|path| - 1] == Segments(key[..i]);
      assert key == key[..i] + "." + key[i + 1..];
      var tail := key[i + 1..];
      forall j | 0 <= j < |tail| ensures tail[j] != '.' {
        assert tail[j] == key[i + 1 + j];
      }
  }

  /** A key MongoDB writes as one field name: not empty, no `.`, no leading `$`. */
  predicate SimpleKey(key: string) {
    key != "" && '.' !in key && key[0] != '$'
  }

  /**
   * `$set` of one path inside `data`, as an upsert does it: every name must
   * be non-empty and not start with `$`; objects missing on the way are
   * created; a value on the way that is not an object stops the write.
   * `None` is MongoDB's refusal.
   */
  function WritePath(data: Doc, path: seq<string>, value: Value): (r: Option<Doc>)
    requires |path| >= 1
    ensures r.Some? ==> r.value.Keys == data.Keys + {path[0]}
    ensures r.Some? ==> forall k :: k in data && k != path[0] ==> r.value[k] == data[k]
    ensures r.Some? && value != Null ==> r.value[path[0]] != Null
    decreases |path|
  {
    var name := path[0];
    if name == "" || name[0] == '$' then None
    else if |path| == 1 then Some(data[name := value])
    else
      var inner := if name in data then data[name] else Obj(map[]);
      if !inner.Obj? then None
      else
        match WritePath(inner.fields, path[1..], value)
        case Some(d) => Some(data[name := Obj(d)])
        case None => None
  }

  /** The value at the end of a path through nested objects, if there is one. */
  function ReadPath(data: Doc, path: seq<string>): Option<Value>
    requires |path| >= 1
    decreases |path|
  {
    if path[0] !in data then None
    else if |path| == 1 then Some(data[path[0]])
    else
      match data[path[0]]
      case Obj(m) => ReadPath(m, path[1..])
      case _ => None
  }

  /** A written path reads back the value written. */
  lemma {:induction false} WriteThenReadPath(data: Doc, path: seq<string>, value: Value)
    requires |path| >= 1 && WritePath(data, path, value).Some?
    ensures ReadPath(WritePath(data, path, value).value, path) == Some(value)
    decreases |path|
  {
    if |path| > 1 {
      var inner := if path[0] in data then data[path[0]] else Obj(map[]);
      WriteThenReadPath(inner.fields, path[1..], value);
    }
  }

  /** A key written as one field name is never refused: it is stored under itself. */
  lemma SimpleKeyWrites(data: Doc, key: string, value: Value)
    requires SimpleKey(key)
    ensures WritePath(data, Segments(key), value) == Some(data[key := value])
  {
  }

  /** The server's message for an update path it refuses. */
  const WriteRejection: string -> string

  /**
   * `Session.__setitem__`: nothing for `None`; otherwise the touch and then
   * the upsert of `__data.<key>`, which land on the same record.  A refused
   * path leaves only the touch.
   */
  function SetAt(records: Records, id: string, key: string, value: Value, now: Instant): (r: Records)
    ensures value != Null ==> r.Keys == records.Keys + {id} && r[id].lastAccessed == now
    ensures forall other :: other in records && other != id ==> other in r && r[other] == records[other]
  {
    if value == Null then records
    else
      match WritePath(DataAt(records, id), Segments(key), value)
      case Some(data) => records[id := Record(now, data)]
      case None => TouchAt(records, id, now)
  }

  /** What `Session.__setitem__` raises: MongoDB's refusal of the path, for a value that is written at all. */
  function SetError(records: Records, id: string, key: string, value: Value): Option<Exc> {
    if value != Null && WritePath(DataAt(records, id), Segments(key), value).None? then Some(DbError(WriteRejection(key)))
    else None
  }

  // ------------------------------------------------------- id resolution

  /**
   * The id a request brings with it: a non-empty explicit id, else the id
   * inside a non-empty, validly signed cookie, provided that id is not empty.
   * `None` means `Session.__init__` falls back to `str(uuid4())`.
   */
  function Carried(explicit: Option<string>, cookie: Option<string>, signer: Signer): (r: Option<string>)
    ensures r.Some? ==> r.value != ""
    ensures explicit.Some? && explicit.value != "" ==> r == explicit
  {
    if explicit.Some? && explicit.value != "" then explicit
    else if cookie.Some? && cookie.value != "" then
      match Unsign(signer, cookie.value)
      case Some(v) => if v != "" then Some(v) else None
      case None => None
    else None
  }

  /** The `idsession` a new `Session` ends up with, given the `uuid4()` text it would mint. */
  function Resolve(explicit: Option<string>, cookie: Option<string>, signer: Signer, minted: string): (r: string)
    ensures minted != "" ==> r != ""
  {
    Carried(explicit, cookie, signer).GetOr(minted)
  }

  /** A carried id that is not the explicit one comes from a cookie that verifies. */
  lemma CarriedOrigin(explicit: Option<string>, cookie: Option<string>, signer: Signer)
    ensures var r := Carried(explicit, cookie, signer);
      r.Some? && r != explicit ==> cookie.Some? && Unsign(signer, cookie.value) == r
  {
  }

  /** The id is the freshly minted one, the explicit one, or the one a validly signed cookie carries. */
  lemma ResolveOrigin(explicit: Option<string>, cookie: Option<string>, signer: Signer, minted: string)
    ensures var r := Resolve(explicit, cookie, signer, minted);
      r == minted || Some(r) == explicit || (cookie.Some? && Unsign(signer, cookie.value) == Some(r))
  {
    CarriedOrigin(explicit, cookie, signer);
  }

  /** How many `uuid4()` values resolution consumes. */
  function Draws(explicit: Option<string>, cookie: Option<string>, signer: Signer): nat {
    if Carried(explicit, cookie, signer).Some? then 0 else 1
  }

  /** The id a `Session` built now on `req` gets, reading the random stream at position `n`. */
  function ResolveOn(req: Request, signer: Signer, rng: Entropy, explicit: Option<string>, n: nat): string {
    Resolve(explicit, req.cookie, signer, Dashed(rng.draw(n)))
  }

  // -------------------------------------------------------------- cookies

  /** The cookie `Session.__init__` schedules for the response. */
  function SessionCookie(signer: Signer, id: string, host: string): CookieAction {
    SetCookie(CookieName, Sign(signer, id), OneYear, true, !IsLocal(host), "Lax")
  }

  /** The cookie `Session.clear` schedules: empty value, expired at once. */
  function ExpiredCookie(host: string): CookieAction {
    SetCookie(CookieName, "", 0, true, !IsLocal(host), "Lax")
  }

  /** `clear` deletes the record of the id a truthy, validly signed cookie carries, and nothing else. */
  function ClearedRecords(records: Records, cookie: Option<string>, signer: Signer): (r: Records)
    ensures r.Keys <= records.Keys
    ensures forall k :: k in r ==> r[k] == records[k]
    ensures forall k :: k in records && k !in r ==> cookie.Some? && Unsign(signer, cookie.value) == Some(k)
  {
    match Carried(None, cookie, signer)
    case Some(v) => records - {v}
    case None => records
  }

  /** `clear` schedules the expiring cookie only when the request brought a cookie. */
  function ClearActions(cookie: Option<string>, host: string): (r: seq<CookieAction>)
    ensures |r| <= 1 && forall i :: 0 <= i < |r| ==> r[i] == ExpiredCookie(host)
    ensures r != [] <==> cookie.Some? && cookie.value != ""
  {
    if cookie.Some? && cookie.value != "" then [ExpiredCookie(host)] else []
  }

  // ---------------------------------------------------------------- state

  /** `session_col`. */
  class SessionStore {
    var records: Records

    ghost predicate Valid()
      reads this
    {
      NoNulls(records)
    }

    constructor ()
      ensures Valid() && records == map[]
    {
      records := map[];
    }
  }

  /** An instance of `Session`: one resolved id. */
  class Session {
    const id: string
    const store: SessionStore
    const req: Request

    /**
     * `Session.__init__`: resolve the id, upsert the touch, and register the
     * `after_this_request` callback that sets the signed cookie.
     */
    constructor (store: SessionStore, req: Request, signer: Signer, rng: Entropy,
                 explicit: Option<string>, now: Instant)
      requires store.Valid()
      modifies store, req, rng
      ensures this.store == store && this.req == req
      ensures id == ResolveOn(req, signer, rng, explicit, old(rng.count))
      ensures rng.count == old(rng.count) + Draws(explicit, req.cookie, signer)
      ensures store.records == TouchAt(old(store.records), id, now) && store.Valid()
      ensures req.pending == old(req.pending) + [SessionCookie(signer, id, req.host)]
    {
      this.store := store;
      this.req := req;
      var resolved := "";
      if explicit.Some? && explicit.value != "" {
        resolved := explicit.value;
      } else if req.cookie.Some? && req.cookie.value != "" {
        var unsigned := Unsign(signer, req.cookie.value);
        if unsigned.Some? {
          resolved := unsigned.value;
        } else {
          // BadSignature
          var u := rng.Next();
          resolved := Dashed(u);
        }
      }
      if resolved == "" {
        var u := rng.Next();
        resolved := Dashed(u);
      }
      id := resolved;
      new;
      UpdateLastAccessed(now);
      req.pending := req.pending + [SessionCookie(signer, id, req.host)];
    }

    /** `_update_last_acceded`. */
    method UpdateLastAccessed(now: Instant)
      requires store.Valid()
      modifies store
      ensures store.records == TouchAt(old(store.records), id, now) && store.Valid()
    {
      store.records := store.records[id := Record(now, DataAt(store.records, id))];
    }

    /**
     * `__setitem__`: a `None` value is skipped; otherwise touch, then `$set`
     * of `__data.<key>`, which raises when MongoDB refuses the path.
     */
    method Set(key: string, value: Value, now: Instant) returns (raised: Option<Exc>)
      requires store.Valid()
      modifies store
      ensures store.records == SetAt(old(store.records), id, key, value, now) && store.Valid()
      ensures raised == SetError(old(store.records), id, key, value)
    {
      if value == Null {
        return None;
      }
      ghost var before := store.records;
      UpdateLastAccessed(now);
      var rec := store.records[id];
      assert rec == Record(now, DataAt(before, id));
      var written := WritePath(rec.data, Segments(key), value);
      if written.Some? {
        store.records := store.records[id := Record(now, written.value)];
        assert store.records == before[id := Record(now, written.value)];
        raised := None;
      } else {
        raised := Some(DbError(WriteRejection(key)));
      }
      SetSteps(before, id, key, value, now, written, store.records);
    }

    /** `__getitem__`: touch, then the stored value or `None`. */
    method Get(key: string, now: Instant) returns (v: Value)
      requires store.Valid()
      modifies store
      ensures v == GetAt(old(store.records), id, key)
      ensures store.records == TouchAt(old(store.records), id, now) && store.Valid()
    {
      UpdateLastAccessed(now);
      var rec := store.records[id];
      v := GetKey(rec.data, key);
    }
  }

  // ------------------------------------------- the metaclass (SessionMeta)

  /** A second touch at the same instant changes nothing. */
  lemma TouchTwice(records: Records, id: string, now: Instant)
    ensures TouchAt(TouchAt(records, id, now), id, now) == TouchAt(records, id, now)
  {
  }

  /** `Session[key]` and `Session.get(key)`: build, touch, then `instance[key]`. */
  method MetaGet(store: SessionStore, req: Request, signer: Signer, rng: Entropy,
                 key: string, explicit: Option<string>, now: Instant) returns (v: Value)
    requires store.Valid()
    modifies store, req, rng
    ensures v == GetAt(old(store.records), ResolveOn(req, signer, rng, explicit, old(rng.count)), key)
    ensures store.records == TouchAt(old(store.records), ResolveOn(req, signer, rng, explicit, old(rng.count)), now)
    ensures store.Valid()
    ensures rng.count == old(rng.count) + Draws(explicit, req.cookie, signer)
    ensures req.pending == old(req.pending) + [SessionCookie(signer, ResolveOn(req, signer, rng, explicit, old(rng.count)), req.host)]
  {
    ghost var before := store.records;
    var s := new Session(store, req, signer, rng, explicit, now);
    s.UpdateLastAccessed(now);
    TouchTwice(before, s.id, now);
    v := s.Get(key, now);
    TouchTwice(before, s.id, now);
  }

  /** `Session[key] = value`: build, touch, then `instance[key] = value`, which raises only for a refused path. */
  method MetaSet(store: SessionStore, req: Request, signer: Signer, rng: Entropy,
                 key: string, value: Value, explicit: Option<string>, now: Instant) returns (raised: Option<Exc>)
    requires store.Valid()
    modifies store, req, rng
    ensures store.records == SetAt(TouchAt(old(store.records), ResolveOn(req, signer, rng, explicit, old(rng.count)), now),
                                   ResolveOn(req, signer, rng, explicit, old(rng.count)), key, value, now)
    ensures raised == SetError(old(store.records), ResolveOn(req, signer, rng, explicit, old(rng.count)), key, value)
    ensures SimpleKey(key) ==> raised == None
    ensures store.Valid()
    ensures rng.count == old(rng.count) + Draws(explicit, req.cookie, signer)
    ensures req.pending == old(req.pending) + [SessionCookie(signer, ResolveOn(req, signer, rng, explicit, old(rng.count)), req.host)]
  {
    ghost var before := store.records;
    var s := new Session(store, req, signer, rng, explicit, now);
    s.UpdateLastAccessed(now);
    TouchTwice(before, s.id, now);
    raised := s.Set(key, value, now);
    if SimpleKey(key) {
      SimpleKeyWrites(DataAt(before, s.id), key, value);
    }
  }

  /** `key in Session`: build a session from the cookie (which touches), then test `__data`. */
  method Contains(store: SessionStore, req: Request, signer: Signer, rng: Entropy,
                  key: string, now: Instant) returns (b: bool)
    requires store.Valid()
    modifies store, req, rng
    ensures b <==> key in DataAt(old(store.records), ResolveOn(req, signer, rng, None, old(rng.count)))
    ensures store.records == TouchAt(old(store.records), ResolveOn(req, signer, rng, None, old(rng.count)), now)
    ensures store.Valid()
    ensures rng.count == old(rng.count) + Draws(None, req.cookie, signer)
    ensures req.pending == old(req.pending) + [SessionCookie(signer, ResolveOn(req, signer, rng, None, old(rng.count)), req.host)]
  {
    var temp := new Session(store, req, signer, rng, None, now);
    var result := store.records[temp.id];
    b := key in result.data;
  }

  /** `Session.to_dict()`: build, then a snapshot of `__data`. */
  method ToDict(store: SessionStore, req: Request, signer: Signer, rng: Entropy,
                explicit: Option<string>, now: Instant) returns (d: Doc)
    requires store.Valid()
    modifies store, req, rng
    ensures d == DataAt(old(store.records), ResolveOn(req, signer, rng, explicit, old(rng.count)))
    ensures store.records == TouchAt(old(store.records), ResolveOn(req, signer, rng, explicit, old(rng.count)), now)
    ensures store.Valid()
    ensures rng.count == old(rng.count) + Draws(explicit, req.cookie, signer)
    ensures req.pending == old(req.pending) + [SessionCookie(signer, ResolveOn(req, signer, rng, explicit, old(rng.count)), req.host)]
  {
    var instance := new Session(store, req, signer, rng, explicit, now);
    var doc := store.records[instance.id];
    d := doc.data;
  }

  /**
   * `Session.clear()`: with no cookie, nothing; otherwise delete the record
   * of the id a valid signature yields (none for a bad one) and schedule the
   * expiring cookie.
   */
  method Clear(store: SessionStore, req: Request, signer: Signer)
    requires store.Valid()
    modifies store, req
    ensures store.records == ClearedRecords(old(store.records), req.cookie, signer) && store.Valid()
    ensures req.pending == old(req.pending) + ClearActions(req.cookie, req.host)
  {
    if req.cookie.None? || req.cookie.value == "" {
      return;
    }
    var toClear: Option<string> := Unsign(signer, req.cookie.value);
    if toClear.Some? && toClear.value != "" {
      store.records := store.records - {toClear.value};
    }
    req.pending := req.pending + [ExpiredCookie(req.host)];
  }

  /**
   * Within one request that carries an id, a write of a simple key is seen
   * by the next read of that key; any other key reads what it held before,
   * since the write went into nested objects or was refused.
   */
  method SetThenGet(store: SessionStore, req: Request, signer: Signer, rng: Entropy,
                    key: string, value: Value, explicit: Option<string>, now: Instant) returns (v: Value)
    requires store.Valid() && value != Null
    requires Carried(explicit, req.cookie, signer).Some?
    modifies store, req, rng
    ensures SimpleKey(key) ==> v == value
    ensures !SimpleKey(key) ==> v == GetAt(old(store.records), Carried(explicit, req.cookie, signer).value, key)
  {
    ghost var before := store.records;
    var _ := MetaSet(store, req, signer, rng, key, value, explicit, now);
    v := MetaGet(store, req, signer, rng, key, explicit, now);
    SetFrame(TouchAt(before, Carried(explicit, req.cookie, signer).value, now), Carried(explicit, req.cookie, signer).value, key, value, now);
  }

  // ---------------------------------------------------------- properties

  /** An explicit, non-empty id is used as given, whatever the cookie says. */
  lemma ExplicitIdWins(e: string, cookie: Option<string>, signer: Signer, minted: string)
    requires e != ""
    ensures Resolve(Some(e), cookie, signer, minted) == e
  {
  }

  /** A cookie that `Sign` produced for a non-empty id resolves to exactly that id, with no draw. */
  lemma SignedCookieResolves(signer: Signer, i: string, minted: string)
    requires WellFormed(signer) && i != ""
    ensures Carried(None, Some(Sign(signer, i)), signer) == Some(i)
    ensures Resolve(None, Some(Sign(signer, i)), signer, minted) == i
  {
    UnsignSign(signer, i);
  }

  /** A missing, empty or tampered cookie resolves to the freshly minted id. */
  lemma UnsignedCookieIsFresh(signer: Signer, cookie: Option<string>, minted: string)
    requires forall i :: cookie != Some(Sign(signer, i))
    ensures Carried(None, cookie, signer) == None
    ensures Resolve(None, cookie, signer, minted) == minted
  {
    if cookie.Some? && cookie.value != "" {
      var u := Unsign(signer, cookie.value);
      if u.Some? {
        UnsignOnlySigned(signer, cookie.value, u.value);
        assert false;
      }
    }
  }

  /** Touching never changes any session's data, and only the touched record's time. */
  lemma TouchKeepsData(records: Records, id: string, now: Instant, other: string)
    ensures DataAt(TouchAt(records, id, now), other) == DataAt(records, other)
    ensures other != id && other in records ==> TouchAt(records, id, now)[other] == records[other]
  {
  }

  /** Setting `None` writes nothing. */
  lemma SetNullIsNoOp(records: Records, id: string, key: string, now: Instant)
    ensures SetAt(records, id, key, Null, now) == records
  {
  }

  /**
   * Setting a value: the record of `id` exists, every other record is
   * unchanged, and only the timestamp of `id` moves.  A simple key reads back
   * the value and no other key of the record changes; in general only the
   * first name of the path can change, the whole path reads back the value
   * when the write was accepted, and a refused write keeps the data.
   */
  lemma SetFrame(records: Records, id: string, key: string, value: Value, now: Instant)
    requires value != Null
    ensures var r := SetAt(records, id, key, value, now);
      && r.Keys == records.Keys + {id}
      && r[id].lastAccessed == now
      && (forall o :: o != id && o in records ==> r[o] == records[o])
      && (SimpleKey(key) ==>
            && GetAt(r, id, key) == value
            && (forall k :: k != key ==> GetAt(r, id, k) == GetAt(records, id, k))
            && (forall k :: k in r[id].data <==> k == key || k in DataAt(records, id)))
      && (forall k :: k != Segments(key)[0] ==> GetAt(r, id, k) == GetAt(records, id, k))
      && (WritePath(DataAt(records, id), Segments(key), value).Some? ==>
            ReadPath(DataAt(r, id), Segments(key)) == Some(value))
      && (WritePath(DataAt(records, id), Segments(key), value).None? ==> DataAt(r, id) == DataAt(records, id))
      && (!SimpleKey(key) ==> GetAt(r, id, key) == GetAt(records, id, key))
  {
    var path := Segments(key);
    if SimpleKey(key) {
      SimpleKeyWrites(DataAt(records, id), key, value);
    }
    if WritePath(DataAt(records, id), path, value).Some? {
      WriteThenReadPath(DataAt(records, id), path, value);
    }
    if !SimpleKey(key) && '.' !in key {
      assert path == [key];
      assert WritePath(DataAt(records, id), path, value).None?;
    }
  }

  /** The store never holds `None`: touching, setting and clearing keep it so. */
  lemma OperationsKeepNoNulls(records: Records, id: string, key: string, value: Value, now: Instant,
                              cookie: Option<string>, signer: Signer)
    requires NoNulls(records)
    ensures NoNulls(TouchAt(records, id, now))
    ensures NoNulls(SetAt(records, id, key, value, now))
    ensures NoNulls(ClearedRecords(records, cookie, signer))
  {
    SetKeepsNoNulls(records, id, key, value, now);
  }

  /** The steps of `__setitem__` for a value other than `None` make up `SetAt`, and keep the store free of `None`. */
  lemma SetSteps(before: Records, id: string, key: string, value: Value, now: Instant,
                 written: Option<Doc>, after: Records)
    requires value != Null && NoNulls(before)
    requires written == WritePath(DataAt(before, id), Segments(key), value)
    requires written.Some? ==> after == before[id := Record(now, written.value)]
    requires written.None? ==> after == TouchAt(before, id, now)
    ensures after == SetAt(before, id, key, value, now) && NoNulls(after)
  {
    SetKeepsNoNulls(before, id, key, value, now);
  }

  /** Setting a value keeps the store free of `None`. */
  lemma SetKeepsNoNulls(records: Records, id: string, key: string, value: Value, now: Instant)
    requires NoNulls(records)
    ensures NoNulls(SetAt(records, id, key, value, now))
  {
  }

  /** In a store without `None` values, a read gives `None` exactly when the key is absent. */
  lemma GetNoneIffAbsent(records: Records, id: string, key: string)
    requires NoNulls(records)
    ensures GetAt(records, id, key) == Null <==> key !in DataAt(records, id)
  {
    if key in DataAt(records, id) {
      assert records[id].data[key] != Null;
    }
  }

  /** `clear` with a validly signed cookie removes exactly that id's record. */
  lemma ClearRemovesSignedId(records: Records, signer: Signer, i: string)
    requires WellFormed(signer) && i != ""
    ensures ClearedRecords(records, Some(Sign(signer, i)), signer) == records - {i}
    ensures ClearActions(Some(Sign(signer, i)), "h") != []
  {
    SignedCookieResolves(signer, i, "");
  }

  /** `clear` with a cookie that `Sign` did not produce deletes nothing. */
  lemma ClearTamperedKeepsAll(records: Records, signer: Signer, cookie: Option<string>)
    requires forall i :: cookie != Some(Sign(signer, i))
    ensures ClearedRecords(records, cookie, signer) == records
  {
    UnsignedCookieIsFresh(signer, cookie, "");
  }

  /**
   * After `clear`, a request without a cookie is a new anonymous session: it
   * resolves to the minted id, the cleared record is gone, and a minted id
   * that is not already stored starts with no data.
   */
  lemma ClearThenNewVisitor(records: Records, signer: Signer, i: string, minted: string)
    requires WellFormed(signer) && i != ""
    requires minted !in ClearedRecords(records, Some(Sign(signer, i)), signer)
    ensures i !in ClearedRecords(records, Some(Sign(signer, i)), signer)
    ensures Resolve(None, None, signer, minted) == minted
    ensures DataAt(ClearedRecords(records, Some(Sign(signer, i)), signer), minted) == map[]
  {
    ClearRemovesSignedId(records, signer, i);
  }

  /** Clearing twice with the same cookie is clearing once. */
  lemma ClearIdempotent(records: Records, signer: Signer, cookie: Option<string>)
    ensures ClearedRecords(ClearedRecords(records, cookie, signer), cookie, signer)
         == ClearedRecords(records, cookie, signer)
  {
  }

  /** The issued cookie: signed id, one year, HttpOnly, and `Secure` off only on the development hosts. */
  lemma CookieAttributes(signer: Signer, id: string, host: string)
    requires WellFormed(signer)
    ensures var c := SessionCookie(signer, id, host);
      && c.name == "idsession" && Unsign(signer, c.value) == Some(id)
      && c.maxAge == 60 * 60 * 24 * 365 && c.httpOnly && c.sameSite == "Lax"
      && (!c.secure <==> HostName(host) == "127.0.0.1" || HostName(host) == "localhost")
  {
    UnsignSign(signer, id);
  }

  /** The host name is what comes before the first colon: a port never changes whether a host is local. */
  lemma {:induction false} HostWithPort(name: string, port: string)
    requires ':' !in name
    ensures HostName(name) == name
    ensures HostName(name + ":" + port) == name
    ensures IsLocal(name + ":" + port) <==> name == "127.0.0.1" || name == "localhost"
  {
    if name != [] {
      assert (name + ":" + port)[1..] == name[1..] + ":" + port;
      HostWithPort(name[1..], port);
    }
  }

  /** Two different `uuid4()` values give two different session ids. */
  lemma DashedInjective(a: Uuid, b: Uuid)
    requires Dashed(a) == Dashed(b)
    ensures a == b
  {
    DashedShape(a);
    DashedShape(b);
    Numerals.HexRoundTrip(a, 32);
    Numerals.HexRoundTrip(b, 32);
  }

  /**
   * Without a valid cookie, each access builds a session with its own minted
   * id: a value written through one access is not what the next access of the
   * same request reads, unless the random values collide.
   */
  lemma CookielessWritesAreNotReadBack(records: Records, signer: Signer, cookie: Option<string>,
                                       a: Uuid, b: Uuid, key: string, value: Value, now: Instant)
    requires Carried(None, cookie, signer) == None && a != b
    ensures var first := Resolve(None, cookie, signer, Dashed(a));
      var second := Resolve(None, cookie, signer, Dashed(b));
      first != second
      && GetAt(SetAt(TouchAt(records, first, now), first, key, value, now), second, key) == GetAt(records, second, key)
  {
    if Dashed(a) == Dashed(b) {
      DashedInjective(a, b);
    }
  }
}
