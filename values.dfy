/**
 * The values that flow through the application: JSON request bodies, session
 * data and MongoDB documents (JSON plus ObjectId), with Python's truthiness,
 * Python's `==`, and the exceptions the handlers catch.
 */
module Values {
  import opened Wrappers
  import opened Numerals

  /** A JSON/BSON value. `Null` is Python's `None`; `Oid` is a BSON ObjectId (12 bytes). */
  datatype Value =
    | Null
    | Bool(b: bool)
    | Int(i: int)
    | Str(s: string)
    | Oid(n: nat)
    | Arr(items: seq<Value>)
    | Obj(fields: map<string, Value>)

  /** A document of a collection, or the body of a JSON response. */
  type Doc = map<string, Value>

  /** Python's `bool(v)`. */
  predicate Truthy(v: Value)
    ensures Truthy(v) <==> v != Null && v != Bool(false) && v != Int(0) && v != Str("") && v != Arr([]) && v != Obj(map[])
  {
    match v
    case Null => false
    case Bool(b) => b
    case Int(i) => i != 0
    case Str(s) => s != ""
    case Oid(_) => true
    case Arr(xs) => xs != []
    case Obj(m) => m != map[]
  }

  /** `str(ObjectId)`: 24 lower-case hexadecimal digits. */
  function OidText(n: nat): string {
    HexDigits(n, 24)
  }

  /** The integer a value stands for in comparisons: `bool` is a subclass of `int` in Python. */
  function Numeric(v: Value): Option<int> {
    match v
    case Bool(b) => Some(if b then 1 else 0)
    case Int(i) => Some(i)
    case _ => None
  }

  /**
   * Python's `a == b`: numbers by value (so `True == 1`), lists item by item,
   * dicts by key set and then value by value, anything else only when identical.
   */
  predicate PyEq(a: Value, b: Value)
    ensures PyEq(a, b) && (a.Str? || a.Null? || a.Oid? || b.Str? || b.Null? || b.Oid?) ==> a == b
    ensures PyEq(a, b) && Numeric(a).Some? ==> Numeric(b) == Numeric(a)
    decreases a
  {
    match (a, b)
    case (Arr(xs), Arr(ys)) => |xs| == |ys| && forall i :: 0 <= i < |xs| ==> PyEq(xs[i], ys[i])
    case (Obj(m), Obj(n)) => m.Keys == n.Keys && forall k :: k in m ==> PyEq(m[k], n[k])
    case _ => if Numeric(a).Some? && Numeric(b).Some? then Numeric(a) == Numeric(b) else a == b
  }

  /** Every value equals itself. */
  lemma {:induction false} PyEqReflexive(a: Value)
    ensures PyEq(a, a)
    decreases a
  {
    match a
    case Arr(xs) =>
      forall i | 0 <= i < |xs| ensures PyEq(xs[i], xs[i]) {
        PyEqReflexive(xs[i]);
      }
    case Obj(m) =>
      forall k | k in m ensures PyEq(m[k], m[k]) {
        PyEqReflexive(m[k]);
      }
    case _ =>
  }

  /** `a == b` and `b == a` agree. */
  lemma {:induction false} PyEqSymmetric(a: Value, b: Value)
    requires PyEq(a, b)
    ensures PyEq(b, a)
    decreases a
  {
    match (a, b)
    case (Arr(xs), Arr(ys)) =>
      forall i | 0 <= i < |ys| ensures PyEq(ys[i], xs[i]) {
        PyEqSymmetric(xs[i], ys[i]);
      }
    case (Obj(m), Obj(n)) =>
      forall k | k in n ensures PyEq(n[k], m[k]) {
        PyEqSymmetric(m[k], n[k]);
      }
    case _ =>
  }

  /** `a == b` and `b == c` give `a == c`. */
  lemma {:induction false} PyEqTransitive(a: Value, b: Value, c: Value)
    requires PyEq(a, b) && PyEq(b, c)
    ensures PyEq(a, c)
    decreases a
  {
    match (a, b, c)
    case (Arr(xs), Arr(ys), Arr(zs)) =>
      forall i | 0 <= i < |xs| ensures PyEq(xs[i], zs[i]) {
        PyEqTransitive(xs[i], ys[i], zs[i]);
      }
    case (Obj(m), Obj(n), Obj(o)) =>
      forall k | k in m ensures PyEq(m[k], o[k]) {
        PyEqTransitive(m[k], n[k], o[k]);
      }
    case _ =>
  }

  /** `[1] == [True]` and `{"a": 1} == {"a": True}` hold, while `"1" == 1` and `[1] == [1, 1]` do not. */
  lemma ContainersCompareByValue()
    ensures PyEq(Arr([Int(1)]), Arr([Bool(true)]))
    ensures PyEq(Obj(map["a" := Int(1)]), Obj(map["a" := Bool(true)]))
    ensures !PyEq(Str("1"), Int(1)) && !PyEq(Arr([Int(1)]), Arr([Int(1), Int(1)]))
  {
    assert Obj(map["a" := Int(1)]).fields.Keys == {"a"};
  }

  /** `type(v).__name__`. */
  function TypeName(v: Value): string {
    match v
    case Null => "NoneType"
    case Bool(_) => "bool"
    case Int(_) => "int"
    case Str(_) => "str"
    case Oid(_) => "ObjectId"
    case Arr(_) => "list"
    case Obj(_) => "dict"
  }

  /** What a `TypeError` complains about. */
  datatype TypeFault =
    | ListIndex          // a `str` subscript on a list
    | StrIndex           // a `str` subscript on a string
    | NotSubscriptable
    | NotIterable
    | Unhashable

  /** The exceptions the handlers' `except Exception` clauses can catch. */
  datatype Exc =
    | KeyError(key: string)
    | TypeError(fault: TypeFault, operand: Value)
    | HttpError(text: string)      // raised by `request.get_json()` for a bad body or content type
    | RecursionError
    | DbError(message: string)     // a pymongo error (`WriteError`, `InvalidDocument`)

  /** `str(e)`. */
  function ExcText(e: Exc): string {
    match e
    case KeyError(k) => "'" + k + "'"
    case TypeError(f, v) => TypeErrorText(f, TypeName(v))
    case HttpError(t) => t
    case RecursionError => "maximum recursion depth exceeded"
    case DbError(t) => t
  }

  /** Python's message for a `TypeError` on a value of type `t`. */
  function TypeErrorText(f: TypeFault, t: string): string {
    match f
    case ListIndex => "list indices must be integers or slices, not str"
    case StrIndex => "string indices must be integers, not 'str'"
    case NotSubscriptable => "'" + t + "' object is not subscriptable"
    case NotIterable => "'" + t + "' object is not iterable"
    case Unhashable => "unhashable type: '" + t + "'"
  }

  /** `d.get(key)` on a dict: the value, or `None` when the key is absent. */
  function GetKey(d: Doc, key: string): (v: Value)
    ensures key !in d ==> v == Null
    ensures key in d ==> v == d[key]
  {
    if key in d then d[key] else Null
  }

  /** `container[key]` with a string key, as Python evaluates it on a decoded JSON value. */
  function Subscript(container: Value, key: string): (r: Result<Value, Exc>)
    ensures r.Success? <==> container.Obj? && key in container.fields
    ensures r.Success? ==> r.value == container.fields[key]
    ensures container.Obj? && key !in container.fields ==> r == Failure(KeyError(key))
  {
    match container
    case Obj(m) => if key in m then Success(m[key]) else Failure(KeyError(key))
    case Arr(_) => Failure(TypeError(ListIndex, container))
    case Str(_) => Failure(TypeError(StrIndex, container))
    case _ => Failure(TypeError(NotSubscriptable, container))
  }

  /** `doc[key]` on a stored document. */
  function DocGet(doc: Doc, key: string): (r: Result<Value, Exc>)
    ensures r.Success? <==> key in doc
    ensures r.Success? ==> r.value == doc[key]
    ensures r.Failure? ==> r.error == KeyError(key)
  {
    Subscript(Obj(doc), key)
  }
}
