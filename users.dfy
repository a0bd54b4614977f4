/**
 * model/MUsers.py over an in-memory `users` collection.  A query document
 * `{field: value, ...}` selects the documents every field of which matches in
 * MongoDB's sense; `find_one` returns the first of them in insertion order and
 * `update_one` with `$set` changes that one document only.
 */
module Users {
  import opened Wrappers
  import opened Values
  import opened Uuids

  // -------------------------------------------------------- query matching

  /** A field name MongoDB reads as an operator: it starts with `$`. */
  predicate IsOperatorName(k: string) {
    |k| > 0 && k[0] == '$'
  }

  /** A query value MongoDB reads as operators: a non-empty object whose keys are all operator names. */
  predicate IsOperatorDoc(v: Value) {
    v.Obj? && v.fields != map[] && forall k :: k in v.fields ==> IsOperatorName(k)
  }

  /**
   * The query operators other than `$eq` and `$ne` (`$gt`, `$in`, `$regex`,
   * `$exists`, ...) as the server evaluates them: `None` when it rejects the
   * operand, otherwise the test it applies to the field (`None` standing for
   * a missing field).  They are left unspecified, so nothing proved here
   * depends on what they do.
   */
  const ServerOperator: (string, Value) -> Option<Option<Value> -> bool>

  /** The server's message for a query it rejects. */
  const RejectionText: Doc -> string

  /**
   * Equality with a value: the field holds `v`, or holds an array with `v`
   * among its items, or (for `v == None`) is missing.
   */
  predicate EqualsField(doc: Doc, field: string, v: Value)
    ensures field in doc && doc[field] == v ==> EqualsField(doc, field, v)
    ensures field !in doc ==> (EqualsField(doc, field, v) <==> v == Null)
    ensures EqualsField(doc, field, v) && field in doc && !doc[field].Arr? ==> doc[field] == v
  {
    if field in doc then doc[field] == v || (doc[field].Arr? && v in doc[field].items)
    else v == Null
  }

  /** One operator `{op: operand}` applied to `field`: `$eq` is equality, `$ne` its negation. */
  predicate OperatorHolds(doc: Doc, field: string, op: string, operand: Value) {
    if op == "$eq" then EqualsField(doc, field, operand)
    else if op == "$ne" then !EqualsField(doc, field, operand)
    else
      match ServerOperator(op, operand)
      case Some(test) => test(if field in doc then Some(doc[field]) else None)
      case None => false
  }

  /** An operator the server accepts with this operand. */
  predicate Accepted(op: string, operand: Value) {
    op == "$eq" || op == "$ne" || ServerOperator(op, operand).Some?
  }

  /** A condition the server accepts: a plain value, or operators it accepts. */
  predicate ConditionAccepted(v: Value) {
    IsOperatorDoc(v) ==> forall op :: op in v.fields ==> Accepted(op, v.fields[op])
  }

  /** A query the server accepts: each of its conditions is accepted. */
  predicate QueryAccepted(query: Doc) {
    forall field :: field in query ==> ConditionAccepted(query[field])
  }

  /**
   * One condition `{field: v}`: every operator of an operator document
   * holds, or, for any other value, equality with it.
   */
  predicate FieldMatches(doc: Doc, field: string, v: Value)
    ensures !IsOperatorDoc(v) ==> (FieldMatches(doc, field, v) <==> EqualsField(doc, field, v))
    ensures IsOperatorDoc(v) && "$eq" in v.fields && FieldMatches(doc, field, v) ==> EqualsField(doc, field, v.fields["$eq"])
    ensures IsOperatorDoc(v) && "$ne" in v.fields && FieldMatches(doc, field, v) ==> !EqualsField(doc, field, v.fields["$ne"])
  {
    if IsOperatorDoc(v) then forall op :: op in v.fields ==> OperatorHolds(doc, field, op, v.fields[op])
    else EqualsField(doc, field, v)
  }

  /** A document matches a query when it matches every condition of it. */
  predicate Matches(doc: Doc, query: Doc)
    ensures query == map[] ==> Matches(doc, query)
    ensures Matches(doc, query) ==> forall field :: field in query && !IsOperatorDoc(query[field]) ==> EqualsField(doc, field, query[field])
  {
    forall field :: field in query ==> FieldMatches(doc, field, query[field])
  }

  /** `{"$eq": v}`: the condition that compares with `v` as a value, whatever `v` is. */
  function ByValue(v: Value): Value {
    Obj(map["$eq" := v])
  }

  /** `{"$eq": v}` is accepted and is equality with `v`, even for an operator document `v`. */
  lemma ByValueIsEquality(v: Value)
    ensures IsOperatorDoc(ByValue(v)) && ConditionAccepted(ByValue(v))
    ensures forall d, field :: FieldMatches(d, field, ByValue(v)) <==> EqualsField(d, field, v)
  {
    var m := map["$eq" := v];
    assert m.Keys == {"$eq"};
    assert IsOperatorName("$eq");
  }

  /** The index of the first document, from `k` on, that matches. */
  function FirstMatchFrom(docs: seq<Doc>, query: Doc, k: nat): (r: Option<nat>)
    requires k <= |docs|
    ensures r.Some? ==> k <= r.value < |docs| && Matches(docs[r.value], query)
    ensures r.Some? ==> forall j :: k <= j < r.value ==> !Matches(docs[j], query)
    ensures r.None? ==> forall j :: k <= j < |docs| ==> !Matches(docs[j], query)
    decreases |docs| - k
  {
    if k == |docs| then None
    else if Matches(docs[k], query) then Some(k)
    else FirstMatchFrom(docs, query, k + 1)
  }

  /** The position `find_one` / `update_one` act on: the first matching document. */
  function FirstMatch(docs: seq<Doc>, query: Doc): (r: Option<nat>)
    ensures r.Some? ==> r.value < |docs| && Matches(docs[r.value], query)
    ensures r.Some? ==> forall j :: 0 <= j < r.value ==> !Matches(docs[j], query)
    ensures r.None? ==> forall j :: 0 <= j < |docs| ==> !Matches(docs[j], query)
  {
    FirstMatchFrom(docs, query, 0)
  }

  /** `collection.find_one(query)`: a rejected query raises; otherwise the first match, if any. */
  function FindOne(docs: seq<Doc>, query: Doc): (r: Result<Option<Doc>, Exc>)
    ensures r.Failure? <==> !QueryAccepted(query)
    ensures r.Failure? ==> r.error == DbError(RejectionText(query))
    ensures r.Success? ==> (r.value.Some? <==> exists j :: 0 <= j < |docs| && Matches(docs[j], query))
    ensures r.Success? && r.value.Some? ==> r.value.value in docs && Matches(r.value.value, query)
  {
    if !QueryAccepted(query) then Failure(DbError(RejectionText(query)))
    else
      match FirstMatch(docs, query)
      case Some(i) => Success(Some(docs[i]))
      case None => Success(None)
  }

  /** A query with one condition is that condition. */
  lemma SingleCondition(field: string, v: Value)
    ensures forall d :: Matches(d, map[field := v]) <==> FieldMatches(d, field, v)
    ensures QueryAccepted(map[field := v]) <==> ConditionAccepted(v)
  {
    var query := map[field := v];
    forall d ensures Matches(d, query) <==> FieldMatches(d, field, v) {
      assert query.Keys == {field} && query[field] == v;
    }
  }

  /** A document appended at the end never changes which earlier document matches first. */
  lemma {:induction false} FirstMatchAppend(docs: seq<Doc>, d: Doc, query: Doc, k: nat)
    requires k <= |docs|
    ensures FirstMatchFrom(docs + [d], query, k) ==
      match FirstMatchFrom(docs, query, k)
      case Some(i) => Some(i)
      case None => if Matches(d, query) then Some(|docs|) else None
    decreases |docs| - k
  {
    var all := docs + [d];
    if k < |docs| {
      assert all[k] == docs[k];
      if !Matches(docs[k], query) {
        FirstMatchAppend(docs, d, query, k + 1);
      }
    }
  }

  // ---------------------------------------------------------- the table

  /** What `update_one` reports. */
  datatype UpdateResult = UpdateResult(matched: nat, modified: nat)

  /** MongoDB's refusal to change a document's `_id`. */
  const ImmutableId: string := "Performing an update on the path '_id' would modify the immutable field '_id'"

  /** `$set` would give `_id` a different value. */
  predicate ChangesId(doc: Doc, fields: Doc) {
    "_id" in fields && ("_id" !in doc || fields["_id"] != doc["_id"])
  }

  /**
   * What `update_one(query, {"$set": fields})` answers and leaves behind: a
   * rejected query raises; no match changes nothing; an attempt to change
   * `_id` fails; otherwise the first matching document gets `fields` written
   * over it, and `modified` is 0 when that changed no value.
   */
  predicate UpdateOutcome(before: seq<Doc>, after: seq<Doc>, r: Result<UpdateResult, Exc>, query: Doc, fields: Doc) {
    if !QueryAccepted(query) then r == Failure(DbError(RejectionText(query))) && after == before
    else
      match FirstMatch(before, query)
      case None => r == Success(UpdateResult(0, 0)) && after == before
      case Some(i) =>
        if ChangesId(before[i], fields) then r == Failure(DbError(ImmutableId)) && after == before
        else
          && after == before[i := before[i] + fields]
          && r == Success(UpdateResult(1, if before[i] + fields == before[i] then 0 else 1))
  }

  /** The `users` collection.  `nextOid` stands for the ObjectIds not yet handed out. */
  class UserTable {
    var docs: seq<Doc>
    var nextOid: nat

    /** Every stored document carries an ObjectId `_id` issued earlier. */
    ghost predicate Valid()
      reads this
    {
      forall i :: 0 <= i < |docs| ==> "_id" in docs[i] && docs[i]["_id"].Oid? && docs[i]["_id"].n < nextOid
    }

    constructor ()
      ensures docs == [] && nextOid == 0 && Valid()
    {
      docs := [];
      nextOid := 0;
    }

    /**
     * `insert_one(doc)` for a document without `_id` (the only kind the
     * application inserts): it is stored with a new ObjectId as `_id`, which
     * is returned.
     */
    method InsertOne(doc: Doc) returns (id: Value)
      requires Valid() && "_id" !in doc
      modifies this
      ensures Valid()
      ensures id == Oid(old(nextOid)) && nextOid == old(nextOid) + 1
      ensures docs == old(docs) + [doc["_id" := id]]
    {
      id := Oid(nextOid);
      docs := docs + [doc["_id" := id]];
      nextOid := nextOid + 1;
    }

    /** `update_one(query, {"$set": fields})`. */
    method UpdateOne(query: Doc, fields: Doc) returns (r: Result<UpdateResult, Exc>)
      requires Valid()
      modifies this
      ensures Valid() && nextOid == old(nextOid)
      ensures UpdateOutcome(old(docs), docs, r, query, fields)
    {
      if !QueryAccepted(query) {
        return Failure(DbError(RejectionText(query)));
      }
      match FirstMatch(docs, query)
      case None =>
        r := Success(UpdateResult(0, 0));
      case Some(i) =>
        var doc := docs[i];
        if ChangesId(doc, fields) {
          r := Failure(DbError(ImmutableId));
        } else {
          var updated := doc + fields;
          docs := docs[i := updated];
          r := Success(UpdateResult(1, if updated == doc then 0 else 1));
        }
    }
  }

  /** Writing `fields` over a document changes exactly those fields and keeps every other. */
  lemma SetFieldsFrame(doc: Doc, fields: Doc)
    ensures (doc + fields).Keys == doc.Keys + fields.Keys
    ensures forall k :: k in fields ==> (doc + fields)[k] == fields[k]
    ensures forall k :: k in doc && k !in fields ==> (doc + fields)[k] == doc[k]
  {
  }

  /**
   * An update by `iduser` matches at most one user: with none matched no
   * user matches and nothing changes; with one matched exactly the written
   * fields of the first matching user change; a failure changes nothing.
   */
  lemma UpdateByIdFrame(before: seq<Doc>, after: seq<Doc>, r: Result<UpdateResult, Exc>, iduser: Value, fields: Doc)
    requires UpdateOutcome(before, after, r, map["iduser" := iduser], fields)
    ensures r.Failure? ==> after == before
    ensures r.Success? ==> r.value.matched <= 1 && r.value.modified <= r.value.matched
    ensures r.Success? && r.value.matched == 0 ==>
      && after == before
      && forall j :: 0 <= j < |before| ==> !FieldMatches(before[j], "iduser", iduser)
    ensures r.Success? && r.value.matched == 1 ==>
      exists i :: 0 <= i < |before| && ChangedFields(before, after, i, iduser, fields)
  {
    var query := map["iduser" := iduser];
    SingleCondition("iduser", iduser);
    if r.Success? && r.value.matched == 1 {
      var i := FirstMatch(before, query).value;
      SetFieldsFrame(before[i], fields);
      assert ChangedFields(before, after, i, iduser, fields);
    }
  }

  /**
   * `after` is `before` with document `i`, the first whose `iduser`
   * matches, given `fields`; every other document and every other field is
   * unchanged.
   */
  ghost predicate ChangedFields(before: seq<Doc>, after: seq<Doc>, i: nat, iduser: Value, fields: Doc) {
    && i < |before| == |after|
    && FieldMatches(before[i], "iduser", iduser)
    && (forall j :: 0 <= j < i ==> !FieldMatches(before[j], "iduser", iduser))
    && (forall j :: 0 <= j < |before| && j != i ==> after[j] == before[j])
    && after[i].Keys == before[i].Keys + fields.Keys
    && (forall k :: k in fields ==> after[i][k] == fields[k])
    && (forall k :: k in before[i] && k !in fields ==> after[i][k] == before[i][k])
  }

  // ------------------------------------------------------------ MUsers.py

  /**
   * `GetUserById(iduser)`: by the `iduser` field for a string, by `_id`
   * otherwise; an empty document counts as none.  Only an operator document
   * the server rejects makes it raise.
   */
  function GetUserById(docs: seq<Doc>, iduser: Value): (r: Result<Option<Doc>, Exc>)
    ensures r.Failure? <==> !ConditionAccepted(iduser)
    ensures r.Success? && r.value.Some? ==> r.value.value in docs && r.value.value != map[]
    ensures iduser.Str? && r.Success? && r.value.Some? ==> FieldMatches(r.value.value, "iduser", iduser)
    ensures !iduser.Str? && r.Success? && r.value.Some? ==> FieldMatches(r.value.value, "_id", iduser)
    ensures iduser.Str? && r == Success(None) ==> forall j :: 0 <= j < |docs| ==> !FieldMatches(docs[j], "iduser", iduser)
    ensures iduser != Null && !iduser.Str? && r == Success(None) && (forall j :: 0 <= j < |docs| ==> docs[j] != map[]) ==>
      forall j :: 0 <= j < |docs| ==> !FieldMatches(docs[j], "_id", iduser)
  {
    var field := if iduser.Str? then "iduser" else "_id";
    var query := map[field := iduser];
    SingleCondition(field, iduser);
    match FindOne(docs, query)
    case Failure(e) => Failure(e)
    case Success(Some(d)) => if d != map[] then Success(Some(d)) else Success(None)
    case Success(None) => Success(None)
  }

  /** The query `GetUserLogin` sends. */
  function LoginQuery(username: Value, password: Value): (r: Doc)
    ensures forall d :: Matches(d, r) ==> EqualsField(d, "status", Str("A"))
  {
    var query := map["username" := username, "password" := password, "status" := Str("A")];
    assert query["status"] == Str("A");
    query
  }

  /** The login query is accepted exactly when both credentials are accepted conditions. */
  lemma LoginQueryAccepted(username: Value, password: Value)
    ensures QueryAccepted(LoginQuery(username, password)) <==> ConditionAccepted(username) && ConditionAccepted(password)
  {
    var query := LoginQuery(username, password);
    assert query["username"] == username && query["password"] == password && query["status"] == Str("A");
  }

  /**
   * `GetUserLogin(username, password)`: the first user matching both
   * credentials and `status == "A"`; each credential is a condition, so an
   * operator document in it is applied as operators.
   */
  function GetUserLogin(docs: seq<Doc>, username: Value, password: Value): (r: Result<Option<Doc>, Exc>)
    ensures r.Failure? <==> !ConditionAccepted(username) || !ConditionAccepted(password)
    ensures r.Failure? ==> r.error == DbError(RejectionText(LoginQuery(username, password)))
    ensures r.Success? ==> (r.value.Some? <==> exists j :: 0 <= j < |docs| && Matches(docs[j], LoginQuery(username, password)))
    ensures r.Success? && r.value.Some? ==>
      && r.value.value in docs && FieldMatches(r.value.value, "status", Str("A"))
      && FieldMatches(r.value.value, "username", username) && FieldMatches(r.value.value, "password", password)
  {
    var query := LoginQuery(username, password);
    LoginQueryAccepted(username, password);
    assert query["status"] == Str("A") && query["username"] == username && query["password"] == password;
    assert forall d :: Matches(d, query) ==> "status" in d;
    match FindOne(docs, query)
    case Failure(e) => Failure(e)
    case Success(Some(d)) => if d != map[] then Success(Some(d)) else Success(None)
    case Success(None) => Success(None)
  }

  /** `GetUserByName(username)`: the first user with that name, the name being a condition as in `GetUserLogin`. */
  function GetUserByName(docs: seq<Doc>, username: Value): (r: Result<Option<Doc>, Exc>)
    ensures r.Failure? <==> !ConditionAccepted(username)
    ensures r.Success? ==> (r.value.Some? <==> exists j :: 0 <= j < |docs| && FieldMatches(docs[j], "username", username))
    ensures r.Success? && r.value.Some? ==> r.value.value in docs && FieldMatches(r.value.value, "username", username)
  {
    var query := map["username" := username];
    SingleCondition("username", username);
    FindOne(docs, query)
  }

  /** The document `RegUser` inserts, before the ObjectId is added. */
  function NewUser(iduser: string, username: Value, password: Value): (r: Doc)
    ensures "status" !in r && "_id" !in r
    ensures "iduser" in r && r["iduser"] == Str(iduser)
  {
    map["iduser" := Str(iduser), "username" := username, "password" := password]
  }

  /**
   * `RegUser(username, password)`: one new document with a new `iduser`
   * (one `uuid4().hex`), the credentials and no `status`; it is read back
   * through its ObjectId and returned.
   */
  method RegUser(users: UserTable, rng: Entropy, username: Value, password: Value) returns (inserted: Option<Doc>)
    requires users.Valid()
    modifies users, rng
    ensures users.Valid() && users.nextOid == old(users.nextOid) + 1
    ensures rng.count == old(rng.count) + 1
    ensures users.docs ==
      old(users.docs) + [NewUser(Hex(rng.draw(old(rng.count))), username, password)["_id" := Oid(old(users.nextOid))]]
    ensures inserted == Some(users.docs[|users.docs| - 1])
    ensures "status" !in inserted.value
  {
    var iduser := GenerateUuid(rng, 1);
    assert iduser == "" + Hex(rng.draw(old(rng.count))) == Hex(rng.draw(old(rng.count)));
    var id := users.InsertOne(NewUser(iduser, username, password));
    RegisteredIsFoundById(old(users.docs), users.docs[|users.docs| - 1], old(users.nextOid));
    var found := GetUserById(users.docs, id);
    inserted := found.value;
  }

  /** A document whose ObjectId is newer than all stored ones is what a lookup by that ObjectId finds. */
  lemma RegisteredIsFoundById(docs: seq<Doc>, d: Doc, n: nat)
    requires forall i :: 0 <= i < |docs| ==> "_id" in docs[i] && docs[i]["_id"].Oid? && docs[i]["_id"].n < n
    requires "_id" in d && d["_id"] == Oid(n)
    ensures GetUserById(docs + [d], Oid(n)) == Success(Some(d))
  {
    var query := map["_id" := Oid(n)];
    assert forall i :: 0 <= i < |docs| ==> !FieldMatches(docs[i], "_id", Oid(n));
    FirstMatchAppend(docs, d, query, 0);
    SingleCondition("_id", Oid(n));
    assert Matches(d, query);
  }

  /** A user just registered has no `status`, so logging in finds exactly what it found before. */
  lemma {:induction false} RegisteredUserCannotLogIn(docs: seq<Doc>, d: Doc, username: Value, password: Value)
    requires "status" !in d
    ensures GetUserLogin(docs + [d], username, password) == GetUserLogin(docs, username, password)
  {
    var query := LoginQuery(username, password);
    assert !Matches(d, query) by {
      assert query["status"] == Str("A");
    }
    FirstMatchAppend(docs, d, query, 0);
  }

  /** After `RegUser`, and before any `status` is set, the new user cannot log in. */
  lemma RegUserThenLogin(docs: seq<Doc>, iduser: string, username: Value, password: Value, n: nat)
    requires GetUserLogin(docs, username, password) == Success(None)
    ensures GetUserLogin(docs + [NewUser(iduser, username, password)["_id" := Oid(n)]], username, password) == Success(None)
  {
    RegisteredUserCannotLogIn(docs, NewUser(iduser, username, password)["_id" := Oid(n)], username, password);
  }

  /** A user that is active and holds both credentials as values. */
  predicate ActiveWith(doc: Doc, username: Value, password: Value) {
    EqualsField(doc, "status", Str("A")) && EqualsField(doc, "username", username) && EqualsField(doc, "password", password)
  }

  /**
   * The login lookup with each credential wrapped in `$eq`, so that it is
   * compared as a value: it never raises, and it finds a user exactly when
   * one is active and holds both values.
   */
  function GetUserLoginByValue(docs: seq<Doc>, username: Value, password: Value): (r: Option<Doc>)
    ensures r.Some? <==> exists j :: 0 <= j < |docs| && ActiveWith(docs[j], username, password)
    ensures r.Some? ==> r.value in docs && ActiveWith(r.value, username, password)
  {
    ByValueIsEquality(username);
    ByValueIsEquality(password);
    var query := LoginQuery(ByValue(username), ByValue(password));
    assert query["status"] == Str("A") && query["username"] == ByValue(username) && query["password"] == ByValue(password);
    assert forall d :: Matches(d, query) <==> ActiveWith(d, username, password);
    match GetUserLogin(docs, ByValue(username), ByValue(password))
    case Success(found) => found
    case Failure(_) => None
  }

  /** The name lookup with the name wrapped in `$eq`: it never raises and finds a user holding that very value. */
  function GetUserByNameByValue(docs: seq<Doc>, username: Value): (r: Option<Doc>)
    ensures r.Some? <==> exists j :: 0 <= j < |docs| && EqualsField(docs[j], "username", username)
    ensures r.Some? ==> r.value in docs && EqualsField(r.value, "username", username)
  {
    ByValueIsEquality(username);
    match GetUserByName(docs, ByValue(username))
    case Success(found) => found
    case Failure(_) => None
  }

  /**
   * `UpdateUserField(dato=..., iduser=..., valor=...)`: `{dato: valor}` is
   * written on the first user with that `iduser`.  A missing keyword raises
   * `KeyError` (checked in the order `dato`, `iduser`, `valor`); a list or
   * dict `dato` cannot be a dict key, and any other non-string cannot be a
   * document key.
   */
  method UpdateUserField(users: UserTable, kwargs: Doc) returns (r: Result<UpdateResult, Exc>)
    requires users.Valid()
    modifies users
    ensures users.Valid() && users.nextOid == old(users.nextOid)
    ensures "dato" !in kwargs ==> r == Failure(KeyError("dato")) && users.docs == old(users.docs)
    ensures "dato" in kwargs && "iduser" !in kwargs ==> r == Failure(KeyError("iduser")) && users.docs == old(users.docs)
    ensures "dato" in kwargs && "iduser" in kwargs && "valor" !in kwargs ==>
      r == Failure(KeyError("valor")) && users.docs == old(users.docs)
    ensures "dato" in kwargs && "iduser" in kwargs && "valor" in kwargs ==>
      var dato := kwargs["dato"];
      && ((dato.Arr? || dato.Obj?) ==> r == Failure(TypeError(Unhashable, dato)) && users.docs == old(users.docs))
      && (!dato.Str? && !dato.Arr? && !dato.Obj? ==> r == Failure(DbError(NonStringKey)) && users.docs == old(users.docs))
      && (dato.Str? ==> UpdateOutcome(old(users.docs), users.docs, r, map["iduser" := kwargs["iduser"]], map[dato.s := kwargs["valor"]]))
    ensures r.Success? ==> "dato" in kwargs && kwargs["dato"].Str? && "iduser" in kwargs && "valor" in kwargs
    ensures r.Success? && r.value.matched == 0 ==>
      && users.docs == old(users.docs)
      && forall j :: 0 <= j < |old(users.docs)| ==> !FieldMatches(old(users.docs)[j], "iduser", kwargs["iduser"])
    ensures r.Success? && r.value.matched == 1 ==>
      exists i :: 0 <= i < |old(users.docs)| &&
        ChangedFields(old(users.docs), users.docs, i, kwargs["iduser"], map[kwargs["dato"].s := kwargs["valor"]])
    ensures r.Failure? ==> users.docs == old(users.docs)
  {
    if "dato" !in kwargs {
      return Failure(KeyError("dato"));
    }
    if "iduser" !in kwargs {
      return Failure(KeyError("iduser"));
    }
    if "valor" !in kwargs {
      return Failure(KeyError("valor"));
    }
    var dato := kwargs["dato"];
    if dato.Arr? || dato.Obj? {
      return Failure(TypeError(Unhashable, dato));
    }
    if !dato.Str? {
      return Failure(DbError(NonStringKey));
    }
    r := users.UpdateOne(map["iduser" := kwargs["iduser"]], map[dato.s := kwargs["valor"]]);
    UpdateByIdFrame(old(users.docs), users.docs, r, kwargs["iduser"], map[dato.s := kwargs["valor"]]);
  }

  /** pymongo's refusal of a document key that is not a string. */
  const NonStringKey: string := "documents must have only string keys"

  /**
   * `UpdateUserStatus(iduser=..., status=...)`: the same update with the
   * field fixed to `status` (`iduser` is read first, then `status`).
   */
  method UpdateUserStatus(users: UserTable, kwargs: Doc) returns (r: Result<UpdateResult, Exc>)
    requires users.Valid()
    modifies users
    ensures users.Valid() && users.nextOid == old(users.nextOid)
    ensures "iduser" !in kwargs ==> r == Failure(KeyError("iduser"))
    ensures "iduser" in kwargs && "status" !in kwargs ==> r == Failure(KeyError("status"))
    ensures "iduser" in kwargs && "status" in kwargs ==>
      UpdateOutcome(old(users.docs), users.docs, r, map["iduser" := kwargs["iduser"]], map["status" := kwargs["status"]])
    ensures r.Failure? ==> users.docs == old(users.docs)
    ensures r.Success? && r.value.matched == 0 ==>
      && users.docs == old(users.docs)
      && forall j :: 0 <= j < |old(users.docs)| ==> !FieldMatches(old(users.docs)[j], "iduser", kwargs["iduser"])
    ensures r.Success? && r.value.matched == 1 ==>
      exists i :: 0 <= i < |old(users.docs)| &&
        ChangedFields(old(users.docs), users.docs, i, kwargs["iduser"], map["status" := kwargs["status"]])
  {
    if "iduser" !in kwargs {
      return Failure(KeyError("iduser"));
    }
    if "status" !in kwargs {
      return Failure(KeyError("status"));
    }
    r := users.UpdateOne(map["iduser" := kwargs["iduser"]], map["status" := kwargs["status"]]);
    UpdateByIdFrame(old(users.docs), users.docs, r, kwargs["iduser"], map["status" := kwargs["status"]]);
  }

  /**
   * `UpdateProfile(iduser=..., **fields)`: every keyword but `iduser` is
   * written on the first user with that `iduser`.  Writing no field at all
   * matches but modifies nothing; writing `_id` fails unless it is unchanged.
   */
  method UpdateProfile(users: UserTable, kwargs: Doc) returns (r: Result<UpdateResult, Exc>)
    requires users.Valid()
    modifies users
    ensures users.Valid() && users.nextOid == old(users.nextOid)
    ensures "iduser" !in kwargs ==> r == Failure(KeyError("iduser"))
    ensures "iduser" in kwargs ==>
      UpdateOutcome(old(users.docs), users.docs, r, map["iduser" := kwargs["iduser"]], kwargs - {"iduser"})
    ensures r.Failure? ==> users.docs == old(users.docs)
    ensures r.Success? && r.value.matched == 0 ==>
      && users.docs == old(users.docs)
      && forall j :: 0 <= j < |old(users.docs)| ==> !FieldMatches(old(users.docs)[j], "iduser", kwargs["iduser"])
    ensures r.Success? && r.value.matched == 1 ==>
      exists i :: 0 <= i < |old(users.docs)| &&
        ChangedFields(old(users.docs), users.docs, i, kwargs["iduser"], kwargs - {"iduser"})
    ensures kwargs.Keys == {"iduser"} && r.Success? ==> users.docs == old(users.docs) && r.value.modified == 0
  {
    if "iduser" !in kwargs {
      return Failure(KeyError("iduser"));
    }
    var iduser := kwargs["iduser"];
    var fields := kwargs - {"iduser"};
    if kwargs.Keys == {"iduser"} {
      assert fields == map[];
      forall d: Doc ensures d + fields == d {
      }
    }
    r := users.UpdateOne(map["iduser" := iduser], fields);
    UpdateByIdFrame(old(users.docs), users.docs, r, iduser, fields);
  }
}
