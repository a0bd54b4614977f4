/**
 * `uuid4()` and `GenerateUuid` of utils/conexion.py.  Randomness is a stream:
 * an `Entropy` object hands out the values of an unknown function `draw` in
 * order, so every property below holds whatever the random values are.
 */
module Uuids {
  import opened Numerals

  /** A 128-bit UUID value (32 hexadecimal digits). */
  type Uuid = n: nat | n < Pow(16, 32)

  /** `uuid.hex`: 32 lower-case hexadecimal digits. */
  function Hex(u: Uuid): (r: string)
    ensures |r| == 32 && AllHex(r)
  {
    HexDigitsShape(u, 32);
    HexDigits(u, 32)
  }

  /** `uuid.hex` loses nothing: its digits read back as the UUID value. */
  lemma HexDecodes(u: Uuid)
    ensures HexValue(Hex(u)) == u
  {
    HexRoundTrip(u, 32);
  }

  /** `str(uuid)`: the 8-4-4-4-12 dashed form. */
  function Dashed(u: Uuid): (r: string)
    ensures |r| == 36 && r[8] == '-' && r[13] == '-' && r[18] == '-' && r[23] == '-'
  {
    var h := Hex(u);
    HexDigitsShape(u, 32);
    h[..8] + "-" + h[8..12] + "-" + h[12..16] + "-" + h[16..20] + "-" + h[20..]
  }

  /**
   * The dashed form has 36 characters, dashes at 8, 13, 18 and 23, and the
   * 32 hexadecimal digits in order between them.
   */
  lemma DashedShape(u: Uuid)
    ensures |Hex(u)| == 32 && AllHex(Hex(u))
    ensures var s := Dashed(u);
      && |s| == 36 && s[8] == '-' && s[13] == '-' && s[18] == '-' && s[23] == '-'
      && Hex(u) == s[..8] + s[9..13] + s[14..18] + s[19..23] + s[24..]
  {
    HexDigitsShape(u, 32);
    var h := Hex(u);
    var s := Dashed(u);
    assert s[..8] == h[..8] && s[9..13] == h[8..12] && s[14..18] == h[12..16];
    assert s[19..23] == h[16..20] && s[24..] == h[20..];
    assert h == h[..8] + h[8..12] + h[12..16] + h[16..20] + h[20..];
  }

  /** The process' source of `uuid4()` values: the `count`-th call returns `draw(count)`. */
  class Entropy {
    const draw: nat -> Uuid
    var count: nat

    constructor (draw: nat -> Uuid)
      ensures this.draw == draw && count == 0
    {
      this.draw := draw;
      count := 0;
    }

    /** `uuid4()`. */
    method Next() returns (u: Uuid)
      modifies this
      ensures u == draw(old(count)) && count == old(count) + 1
    {
      u := draw(count);
      count := count + 1;
    }
  }

  /** The hex forms of `n` consecutive draws starting at `start`, concatenated. */
  function HexRun(draw: nat -> Uuid, start: nat, n: nat): (s: string)
    ensures |s| == 32 * n
  {
    if n == 0 then ""
    else
      HexDigitsShape(draw(start + n - 1), 32);
      HexRun(draw, start, n - 1) + Hex(draw(start + n - 1))
  }

  /** The `k`-th 32-character block of a run is the `k`-th draw. */
  lemma {:induction false} HexRunBlock(draw: nat -> Uuid, start: nat, n: nat, k: nat)
    requires k < n
    ensures HexRun(draw, start, n)[32 * k..32 * k + 32] == Hex(draw(start + k))
  {
    var prefix := HexRun(draw, start, n - 1);
    assert HexRun(draw, start, n) == prefix + Hex(draw(start + n - 1));
    if k < n - 1 {
      HexRunBlock(draw, start, n - 1, k);
    }
  }

  /** Every block of a run reads back as the random value it was made from. */
  lemma HexRunDecodes(draw: nat -> Uuid, start: nat, n: nat, k: nat)
    requires k < n
    ensures AllHex(HexRun(draw, start, n)[32 * k..32 * k + 32])
    ensures HexValue(HexRun(draw, start, n)[32 * k..32 * k + 32]) == draw(start + k)
  {
    HexRunBlock(draw, start, n, k);
    HexRoundTrip(draw(start + k), 32);
  }

  /**
   * `GenerateUuid(sequences)`: `uuid4().hex` appended once per iteration of
   * `range(sequences)`; a count of zero or less gives the empty string.
   */
  method GenerateUuid(rng: Entropy, sequences: int) returns (result: string)
    modifies rng
    ensures rng.count == old(rng.count) + (if sequences > 0 then sequences else 0)
    ensures result == HexRun(rng.draw, old(rng.count), if sequences > 0 then sequences else 0)
    ensures |result| == 32 * (if sequences > 0 then sequences else 0)
  {
    var n := if sequences > 0 then sequences else 0;
    result := "";
    for i := 0 to n
      invariant rng.count == old(rng.count) + i
      invariant result == HexRun(rng.draw, old(rng.count), i)
    {
      var u := rng.Next();
      result := result + Hex(u);
    }
  }
}
