/**
 * utils/tools.py: the log writer `escribir_log` (its level classification and
 * the line it stores in `log_col`), the response envelope `msg` / `msg_err`,
 * and the helpers `parse_ids`, `ruta_abs` and `t_int`.
 */
module Tools {
  import opened Wrappers
  import opened Numerals
  import opened Values
  import opened Clock
  import opened Uuids

  // ----------------------------------------------------------------- logs

  /** The `tipo` of a log entry. */
  datatype Level = Exito | Warning | Error

  /** The `status` argument: an int or a string. */
  datatype Status = SInt(i: int) | SStr(s: string)

  /** The `msg` argument: a text or a caught exception. */
  datatype Message = Text(s: string) | Raised(e: Exc)

  /** `str(msg)`. */
  function MessageText(m: Message): string {
    match m
    case Text(s) => s
    case Raised(e) => ExcText(e)
  }

  /** `str(status)`. */
  function StatusText(status: Status): string {
    match status
    case SInt(i) => IntText(i)
    case SStr(s) => s
  }

  function LowerChar(c: char): char {
    if 'A' <= c <= 'Z' then (c as int + 32) as char else c
  }

  /**
   * `s.lower()` on ASCII letters.  No other character lower-cases to one of
   * the letters of "error" or "warning", so comparing with those words gives
   * the same answer as Python's full Unicode `lower()`.
   */
  function Lower(s: string): (r: string)
    ensures |r| == |s|
  {
    seq(|s|, i requires 0 <= i < |s| => LowerChar(s[i]))
  }

  /**
   * The level `escribir_log` files an entry under: "error" when the status is
   * 1 or spells "error" in any case, or the message is an exception; else
   * "warning" when the status is 2 or spells "warning"; else "exito".
   */
  function Classify(status: Status, m: Message): (r: Level)
    ensures status == SInt(1) || m.Raised? ==> r == Error
    ensures r != Error ==> status != SInt(1) && !m.Raised?
    ensures r == Exito ==> status != SInt(2)
  {
    var text := Lower(StatusText(status));
    if status == SInt(1) || text == "error" || m.Raised? then Error
    else if status == SInt(2) || text == "warning" then Warning
    else Exito
  }

  /** The stored `mensaje`: `"[" + timestamp + "] " + str(msg) + "\n"`. */
  function LogLine(now: Instant, text: string): (r: string)
    ensures |r| == |Stamp(now)| + |text| + 4
    ensures r[0] == '[' && r[|r| - 1] == '\n'
    ensures r[|Stamp(now)| + 1..|Stamp(now)| + 3] == "] "
    ensures r[|Stamp(now)| + 3..|r| - 1] == text
  {
    "[" + Stamp(now) + "] " + text + "\n"
  }

  /**
   * One document of `log_col`: `idlog` is the random value whose 32-digit
   * `Hex` form is stored (what `GenerateUuid()` returns for one sequence),
   * `at` the `fecha_hora`, `level` the `tipo` and `text` the `str(msg)` the
   * stored `mensaje` is made from.
   */
  datatype LogEntry = LogEntry(idlog: Uuid, at: Instant, level: Level, text: string)
  {
    /** The stored `mensaje` field. */
    function Mensaje(): string {
      LogLine(at, text)
    }
  }

  /** `log_col`. */
  class LogStore {
    var entries: seq<LogEntry>

    constructor ()
      ensures entries == []
    {
      entries := [];
    }
  }

  /**
   * `escribir_log(msg, status)`: one new entry with a new `idlog`, the
   * level, the instant and the message text.  `GenerateUuid()` is one
   * `uuid4()` in hex form, so the entry keeps that one draw.
   */
  method WriteLog(logs: LogStore, rng: Entropy, m: Message, status: Status, now: Instant)
    modifies logs, rng
    ensures rng.count == old(rng.count) + 1
    ensures logs.entries == old(logs.entries)
      + [LogEntry(rng.draw(old(rng.count)), now, Classify(status, m), MessageText(m))]
  {
    var tipo := Classify(status, m);
    var idlog := rng.Next();
    logs.entries := logs.entries + [LogEntry(idlog, now, tipo, MessageText(m))];
  }

  /** An integer status other than 1 and 2 never spells "error" or "warning". */
  lemma NumericStatusLevel(i: int, m: Message)
    ensures Classify(SInt(i), m) == if i == 1 || m.Raised? then Error else if i == 2 then Warning else Exito
  {
    var t := Lower(IntText(i));
    DecimalTextShape(if i < 0 then -i else i);
    assert t[0] == '-' || IsDigit(t[0]);
    assert t != "error" && t != "warning";
  }

  /** An exception is always filed as an error, whatever status comes with it. */
  lemma ExceptionIsError(status: Status, e: Exc)
    ensures Classify(status, Raised(e)) == Error
  {
  }

  /** A textual status is read without regard to case; "2" is a string, not the number 2. */
  lemma TextStatusLevel(s: string)
    ensures Classify(SStr(s), Text("")) == Classify(SStr(Lower(s)), Text(""))
    ensures Classify(SStr("WARNING"), Text("")) == Warning
    ensures Classify(SStr("2"), Text("")) == Exito
  {
    assert Lower(Lower(s)) == Lower(s);
    assert Lower("WARNING") == "warning";
    assert Lower("2") == "2";
  }

  /** The status "warning" files a text message as a warning. */
  lemma WarningStatus(m: Message)
    requires m.Text?
    ensures Classify(SStr("warning"), m) == Warning
  {
    assert Lower("warning") == "warning";
  }

  /** A stored line starts with the bracketed 19-character stamp, and the message is recovered from it. */
  lemma LogLineMessage(now: Instant, text: string)
    requires Valid(now)
    ensures var line := LogLine(now, text);
      && |line| == |text| + 23
      && line[0] == '[' && line[1..20] == Stamp(now) && line[20..22] == "] "
      && line[22..|line| - 1] == text && line[|line| - 1] == '\n'
  {
    StampLength(now);
  }

  // ------------------------------------------------------------- envelope

  /** `msg(status, msg, **kwargs)`: `status`, `msg` (an exception as its text) and exactly the extra keys. */
  function Envelope(status: int, m: Message, extra: Doc): (r: Doc)
    requires "status" !in extra && "msg" !in extra && "log" !in extra
    ensures r.Keys == {"status", "msg"} + extra.Keys
    ensures r["status"] == Int(status) && r["msg"] == Str(MessageText(m))
    ensures forall k :: k in extra ==> r[k] == extra[k]
  {
    map["status" := Int(status), "msg" := Str(MessageText(m))] + extra
  }

  /** `msg(...)` with its `log` flag: the same envelope, and a log entry when asked. */
  method Msg(logs: LogStore, rng: Entropy, status: int, m: Message, log: bool, extra: Doc, now: Instant)
    returns (r: Doc)
    requires "status" !in extra && "msg" !in extra && "log" !in extra
    modifies logs, rng
    ensures r == Envelope(status, m, extra)
    ensures log ==> (rng.count == old(rng.count) + 1 && logs.entries == old(logs.entries)
      + [LogEntry(rng.draw(old(rng.count)), now, Classify(SInt(status), m), MessageText(m))])
    ensures !log ==> rng.count == old(rng.count) && logs.entries == old(logs.entries)
  {
    if log {
      WriteLog(logs, rng, m, SInt(status), now);
    }
    r := Envelope(status, m, extra);
  }

  /** `msg_err(e)`: `msg(1, e, log=True)`. */
  method MsgErr(logs: LogStore, rng: Entropy, e: Exc, now: Instant) returns (r: Doc)
    modifies logs, rng
    ensures r == Envelope(1, Raised(e), map[])
    ensures r["status"] == Int(1) && r["msg"] == Str(ExcText(e))
    ensures rng.count == old(rng.count) + 1
    ensures logs.entries == old(logs.entries)
      + [LogEntry(rng.draw(old(rng.count)), now, Error, ExcText(e))]
  {
    r := Msg(logs, rng, 1, Raised(e), true, map[], now);
  }

  // ------------------------------------------------------------ parse_ids

  /** The dict case of `parse_ids`: ObjectId values become their text, others stay (one level only). */
  function StringifyIds(m: Doc): (r: Doc)
    ensures r.Keys == m.Keys
    ensures forall k :: k in m && m[k].Oid? ==> r[k] == Str(OidText(m[k].n))
    ensures forall k :: k in m && !m[k].Oid? ==> r[k] == m[k]
  {
    map k | k in m :: if m[k].Oid? then Str(OidText(m[k].n)) else m[k]
  }

  /** The index of the first failure in a list of results, if any. */
  function FirstFailure(rs: seq<Result<Value, Exc>>): (r: Option<nat>)
    ensures r.Some? ==> r.value < |rs| && rs[r.value].Failure?
    ensures r.Some? ==> forall j :: 0 <= j < r.value ==> rs[j].Success?
    ensures r.None? ==> forall j :: 0 <= j < |rs| ==> rs[j].Success?
  {
    if rs == [] then None
    else if rs[0].Failure? then Some(0)
    else match FirstFailure(rs[1..]) case Some(j) => Some(j + 1) case None => None
  }

  /**
   * `parse_ids(datos)`.  A dict is stringified; anything else is iterated and
   * each item parsed in turn, so a list maps item by item and stops at the
   * first item that raises; an empty string iterates to `[]`; a non-empty
   * string iterates to one-character strings that recurse without end
   * (`RecursionError`); other values are not iterable (`TypeError`).
   */
  function ParseIds(v: Value): (r: Result<Value, Exc>)
    ensures v.Obj? ==> r == Success(Obj(StringifyIds(v.fields)))
    ensures v.Arr? && r.Success? ==> r.value.Arr? && |r.value.items| == |v.items|
  {
    match v
    case Obj(m) => Success(Obj(StringifyIds(m)))
    case Arr(xs) =>
      var rs := seq(|xs|, i requires 0 <= i < |xs| => ParseIds(xs[i]));
      (match FirstFailure(rs)
       case Some(j) => Failure(rs[j].error)
       case None => Success(Arr(seq(|rs|, i requires 0 <= i < |rs| => rs[i].value))))
    case Str(s) => if s == "" then Success(Arr([])) else Failure(RecursionError)
    case _ => Failure(TypeError(NotIterable, v))
  }

  /** A list parses item by item: each item of the result is that item's own parse. */
  lemma ParseIdsList(xs: seq<Value>, i: nat)
    requires ParseIds(Arr(xs)).Success? && i < |xs|
    ensures ParseIds(xs[i]) == Success(ParseIds(Arr(xs)).value.items[i])
  {
  }

  /** Parsing what `parse_ids` returned changes nothing: no ObjectId is left where it looks. */
  lemma {:induction false} ParseIdsIdempotent(v: Value)
    requires ParseIds(v).Success?
    ensures ParseIds(ParseIds(v).value) == ParseIds(v)
    decreases v
  {
    var w := ParseIds(v).value;
    match v
    case Obj(m) =>
      assert StringifyIds(w.fields) == w.fields;
    case Arr(xs) =>
      var ys := w.items;
      forall i | 0 <= i < |ys|
        ensures ParseIds(ys[i]) == Success(ys[i])
      {
        ParseIdsList(xs, i);
        ParseIdsIdempotent(xs[i]);
      }
      var rs := seq(|ys|, i requires 0 <= i < |ys| => ParseIds(ys[i]));
      assert FirstFailure(rs).None?;
      assert seq(|rs|, i requires 0 <= i < |rs| => rs[i].value) == ys;
    case Str(s) =>
    case _ =>
  }

  // ------------------------------------------------------------- ruta_abs

  /** `p.replace("\\", "/")`. */
  function ForwardSlashes(p: string): (q: string)
    ensures |q| == |p| && '\\' !in q
    ensures forall i :: 0 <= i < |p| ==> q[i] == if p[i] == '\\' then '/' else p[i]
  {
    seq(|p|, i requires 0 <= i < |p| => if p[i] == '\\' then '/' else p[i])
  }

  /** The part `ruta_abs` appends to the base: slashes forward, and one leading "/". */
  function Rooted(p: string): string {
    var q := ForwardSlashes(p);
    if |q| > 0 && q[0] == '/' then q else "/" + q
  }

  /** `ruta_abs(p)` with `sys.path[0]` given as `base`. */
  function RutaAbs(base: string, p: string): (r: string)
    ensures |r| > |base| && r[..|base|] == base && r[|base|] == '/'
    ensures '\\' !in r[|base|..]
  {
    var q := ForwardSlashes(p);
    assert '\\' !in "/" + q by {
      assert forall i :: 0 < i < |"/" + q| ==> ("/" + q)[i] == q[i - 1];
    }
    var tail := Rooted(p);
    assert (base + tail)[|base|..] == tail;
    base + tail
  }

  /**
   * The result is the base followed by a path that starts with "/", holds no
   * backslash, and is `p` with backslashes turned into slashes, with a "/"
   * put in front exactly when that did not already start with one.
   */
  lemma RutaAbsShape(base: string, p: string)
    ensures var r := RutaAbs(base, p);
      var q := r[|base|..];
      && base <= r && 0 < |q| && q[0] == '/' && '\\' !in q
      && (if 0 < |p| && (p[0] == '/' || p[0] == '\\') then q == ForwardSlashes(p) else q == "/" + ForwardSlashes(p))
  {
    var q := ForwardSlashes(p);
    assert '\\' !in "/" + q by {
      assert forall i :: 0 < i < |q| + 1 ==> ("/" + q)[i] == q[i - 1];
    }
  }

  /** Rooting a rooted path changes nothing. */
  lemma RootedIdempotent(p: string)
    ensures Rooted(Rooted(p)) == Rooted(p)
  {
    var q := ForwardSlashes(p);
    var r := Rooted(p);
    RutaAbsShape("", p);
    assert ForwardSlashes(r) == r;
  }

  // ---------------------------------------------------------------- t_int

  /** The whitespace `int()` strips (the ASCII part of Python's set). */
  predicate IsSpace(c: char) {
    c == ' ' || '\t' <= c <= '\r' || '\U{1C}' <= c <= '\U{1F}'
  }

  function StripLeft(s: string): (r: string)
    ensures |r| <= |s| && r == s[|s| - |r|..]
    ensures r == [] || !IsSpace(r[0])
  {
    if s != [] && IsSpace(s[0]) then StripLeft(s[1..]) else s
  }

  function StripRight(s: string): (r: string)
    ensures r <= s
    ensures r == [] || !IsSpace(r[|r| - 1])
  {
    if s != [] && IsSpace(s[|s| - 1]) then StripRight(s[..|s| - 1]) else s
  }

  /** `s.strip()`. */
  function Strip(s: string): (r: string)
    ensures |r| <= |s|
    ensures r == [] || (!IsSpace(r[0]) && !IsSpace(r[|r| - 1]))
  {
    StripRight(StripLeft(s))
  }

  /** Digits, with single underscores allowed between two digits (`int("1_000")`). */
  predicate DigitGroups(b: string) {
    && 0 < |b| && IsDigit(b[0]) && IsDigit(b[|b| - 1])
    && (forall i :: 0 <= i < |b| ==> IsDigit(b[i]) || b[i] == '_')
    && (forall i, j :: 0 <= i < |b| && 0 <= j < |b| && j == i + 1 ==> IsDigit(b[i]) || IsDigit(b[j]))
  }

  function WithoutUnderscores(b: string): (r: string)
    ensures (forall i :: 0 <= i < |b| ==> IsDigit(b[i]) || b[i] == '_') ==> AllDigits(r)
    ensures AllDigits(b) ==> r == b
  {
    if b == [] then [] else (if b[0] == '_' then [] else [b[0]]) + WithoutUnderscores(b[1..])
  }

  /**
   * CPython's default bound on the digits of a decimal text: `int()` of a
   * text with more digits (underscores not counted) raises `ValueError`, and
   * so does `str()` of an integer that long.
   */
  const MaxStrDigits: nat := 4300

  /** A digit text is never shorter than the canonical text of the number it spells. */
  lemma {:induction false} DecimalTextNoLonger(s: string)
    requires 0 < |s| && AllDigits(s)
    ensures |DecimalText(DecimalValue(s))| <= |s|
    decreases |s|
  {
    var init := s[..|s| - 1];
    var m := DecimalValue(init);
    var n := DecimalValue(s);
    assert n == 10 * m + DigitValue(s[|s| - 1]);
    if n >= 10 {
      assert n / 10 == m;
      assert init != [];
      DecimalTextNoLonger(init);
    }
  }

  /**
   * `int(s)` for a string: the integer it spells, or `None` where Python
   * raises `ValueError`.  A number read is never negative without a leading
   * `-`, and its own text is within the digit bound.
   */
  function ParseInt(s: string): (r: Option<int>)
    ensures r.Some? ==> Strip(s) != [] && (r.value < 0 ==> Strip(s)[0] == '-')
    ensures r.Some? ==> |DecimalText(if r.value < 0 then -r.value else r.value)| <= MaxStrDigits
  {
    var t := Strip(s);
    if t == [] then None
    else
      var negative := t[0] == '-';
      var body := if t[0] == '-' || t[0] == '+' then t[1..] else t;
      if DigitGroups(body) then
        var digits := WithoutUnderscores(body);
        if |digits| > MaxStrDigits then None
        else
          DecimalTextNoLonger(digits);
          var n: int := DecimalValue(digits);
          Some(if negative then -n else n)
      else None
  }

  /** `t_int(valor)`: `int(valor)`, or 0 when the conversion raises. */
  function TInt(v: Value): (r: int)
    ensures v.Int? ==> r == v.i
    ensures v.Bool? ==> r == Numeric(v).value
    ensures v.Str? && ParseInt(v.s).Some? ==> r == ParseInt(v.s).value
    ensures (v.Str? && ParseInt(v.s).None?) || v.Null? || v.Oid? || v.Arr? || v.Obj? ==> r == 0
  {
    match v
    case Int(i) => i
    case Bool(b) => if b then 1 else 0
    case Str(s) => ParseInt(s).GetOr(0)
    case _ => 0
  }

  /** A string with no whitespace at either end is its own `strip()`. */
  lemma StripNothing(s: string)
    requires s != [] && !IsSpace(s[0]) && !IsSpace(s[|s| - 1])
    ensures Strip(s) == s
  {
  }

  /** The decimal text of a natural number is a single digit group. */
  lemma DecimalTextGroups(n: nat)
    ensures DigitGroups(DecimalText(n)) && WithoutUnderscores(DecimalText(n)) == DecimalText(n)
  {
    DecimalTextShape(n);
  }

  /**
   * `int(str(i))`: the integer back when its text is within the digit bound,
   * else `ValueError`.
   */
  lemma ParseIntText(i: int)
    ensures var n := if i < 0 then -i else i;
      ParseInt(IntText(i)) == if |DecimalText(n)| <= MaxStrDigits then Some(i) else None
  {
    var n := if i < 0 then -i else i;
    var d := DecimalText(n);
    var t := IntText(i);
    DecimalTextShape(n);
    IntTextStripped(i);
    assert t != [];
    var body := if t[0] == '-' || t[0] == '+' then t[1..] else t;
    assert body == d by {
      if i < 0 {
        assert t[1..] == d;
      } else {
        assert IsDigit(d[0]);
      }
    }
    assert (t[0] == '-') == (i < 0) by {
      if i >= 0 {
        assert IsDigit(d[0]);
      }
    }
    DecimalTextGroups(n);
    DecimalRoundTrip(n);
  }

  /** The text of an integer within the digit bound converts back to that integer. */
  lemma TIntReadsIntText(i: int)
    requires |DecimalText(if i < 0 then -i else i)| <= MaxStrDigits
    ensures TInt(Str(IntText(i))) == i
  {
    ParseIntText(i);
  }

  /** The text of an integer beyond the digit bound is refused by `int()`, so `t_int` gives 0. */
  lemma TIntLongTextIsZero(i: int)
    requires |DecimalText(if i < 0 then -i else i)| > MaxStrDigits
    ensures TInt(Str(IntText(i))) == 0
  {
    ParseIntText(i);
  }

  /** A number's text has nothing for `strip()` to remove. */
  lemma IntTextStripped(i: int)
    ensures Strip(IntText(i)) == IntText(i)
  {
    var t := IntText(i);
    DecimalTextShape(if i < 0 then -i else i);
    assert t[0] == '-' || IsDigit(t[0]);
    assert IsDigit(t[|t| - 1]);
    StripNothing(t);
  }

  /** Whatever surrounds a number's text, if `strip()` removes it the number is read: `int(" 42\n") == 42`. */
  lemma TIntIgnoresSpaces(s: string, i: int)
    requires Strip(s) == IntText(i) && |DecimalText(if i < 0 then -i else i)| <= MaxStrDigits
    ensures TInt(Str(s)) == i
  {
    TIntReadsIntText(i);
    IntTextStripped(i);
    assert Strip(s) == Strip(IntText(i));
  }

  /** A blank before and a newline after are what `strip()` removes. */
  lemma StripPadded(s: string)
    requires s != [] && !IsSpace(s[0]) && !IsSpace(s[|s| - 1])
    ensures Strip(" " + s + "\n") == s
  {
    var padded := " " + s + "\n";
    assert StripLeft(padded) == s + "\n" by {
      assert padded[1..] == s + "\n";
    }
    assert StripRight(s + "\n") == s by {
      assert (s + "\n")[..|s|] == s;
    }
  }

  /**
   * An ASCII string without a single digit is not a number: `t_int` gives 0.
   * (Python also reads the decimal digits of other scripts, which this model
   * does not.)
   */
  lemma TIntAsciiWithoutDigits(s: string)
    requires forall i :: 0 <= i < |s| ==> s[i] < 128 as char && !IsDigit(s[i])
    ensures TInt(Str(s)) == 0
  {
  }
}
