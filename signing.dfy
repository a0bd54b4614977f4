/**
 * The signed-cookie codec, shaped like itsdangerous' `Signer`: a token is
 * `value + "." + signature`, and unsigning splits at the LAST "." and accepts
 * only when the signature is the one the secret key gives for the value.
 * The keyed digest itself (HMAC over the secret) is abstract: a signer is given
 * by the function from value to encoded signature, whose only property used
 * here is that the encoding is URL-safe base64 and so never contains ".".
 */
module Signing {
  import opened Wrappers

  const Sep: char := '.'

  predicate IsBase64UrlChar(c: char) {
    'A' <= c <= 'Z' || 'a' <= c <= 'z' || '0' <= c <= '9' || c == '-' || c == '_'
  }

  /** A signer bound to one secret key: `mac(v)` is the encoded signature of `v`. */
  datatype Signer = Signer(mac: string -> string)

  /** Signatures are URL-safe base64 text. */
  ghost predicate WellFormed(signer: Signer) {
    forall v: string, i :: 0 <= i < |signer.mac(v)| ==> IsBase64UrlChar(signer.mac(v)[i])
  }

  /** `signer.sign(value)`. */
  function Sign(signer: Signer, value: string): (r: string)
    ensures |r| == |value| + 1 + |signer.mac(value)| && r[|value|] == Sep
    ensures forall i :: 0 <= i < |value| ==> r[i] == value[i]
  {
    value + [Sep] + signer.mac(value)
  }

  /** The position of the last `c` in `s`, as `rsplit(c, 1)` finds it. */
  function LastIndexOf(s: string, c: char): (r: Option<nat>)
    ensures r.Some? ==> r.value < |s| && s[r.value] == c
    ensures r.Some? ==> forall j :: r.value < j < |s| ==> s[j] != c
    ensures r.None? ==> forall j :: 0 <= j < |s| ==> s[j] != c
  {
    if s == [] then None
    else if s[|s| - 1] == c then Some(|s| - 1)
    else LastIndexOf(s[..|s| - 1], c)
  }

  /**
   * `signer.unsign(token)`: the signed value, or `None` where itsdangerous
   * raises `BadSignature` (no separator, or a signature that does not match).
   */
  function Unsign(signer: Signer, token: string): (r: Option<string>)
    ensures r.Some? ==> |r.value| < |token| && token[..|r.value|] == r.value && token[|r.value|] == Sep
    ensures r.Some? ==> token[|r.value| + 1..] == signer.mac(r.value)
  {
    match LastIndexOf(token, Sep)
    case None => None
    case Some(i) => if token[i + 1..] == signer.mac(token[..i]) then Some(token[..i]) else None
  }

  /** Every identifier survives signing: `unsign(sign(v)) == v`. */
  lemma UnsignSign(signer: Signer, v: string)
    requires WellFormed(signer)
    ensures Unsign(signer, Sign(signer, v)) == Some(v)
  {
    var t := Sign(signer, v);
    var m := signer.mac(v);
    assert t[|v|] == Sep;
    forall j | |v| < j < |t|
      ensures t[j] != Sep
    {
      assert t[j] == m[j - |v| - 1];
      assert IsBase64UrlChar(m[j - |v| - 1]);
    }
    var i := LastIndexOf(t, Sep).value;
    assert i == |v|;
    assert t[..i] == v && t[i + 1..] == m;
  }

  /** Only a token that `Sign` produced is accepted, and it yields the value that was signed. */
  lemma UnsignOnlySigned(signer: Signer, t: string, v: string)
    requires Unsign(signer, t) == Some(v)
    ensures t == Sign(signer, v)
  {
    var i := LastIndexOf(t, Sep).value;
    assert t == t[..i] + [t[i]] + t[i + 1..];
  }

  /** Verification recovers exactly the signed identifier, or fails: never another identifier. */
  lemma UnsignIff(signer: Signer, t: string, v: string)
    requires WellFormed(signer)
    ensures Unsign(signer, t) == Some(v) <==> t == Sign(signer, v)
  {
    if t == Sign(signer, v) {
      UnsignSign(signer, v);
    }
    if Unsign(signer, t) == Some(v) {
      UnsignOnlySigned(signer, t, v);
    }
  }
}
