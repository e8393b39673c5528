/** `hashStringToId` (src/rag/embed.js): the point id a chunk id is stored
    under. The loop folds `hash = ((hash << 5) - hash) + code` over the UTF-16
    code units of the id, `hash & hash` brings the sum back to a signed 32-bit
    integer after every step, and the result is `Math.abs(hash)`. */
module Hash {

  /** A UTF-16 code unit, what `String.prototype.charCodeAt` returns. */
  type CodeUnit = c: int | 0 <= c < 0x1_0000

  const TwoTo31: int := 0x8000_0000
  const TwoTo32: int := 0x1_0000_0000

  predicate IsInt32(x: int) {
    -TwoTo31 <= x < TwoTo31
  }

  /** The ECMAScript ToInt32 conversion that `<<` and `&` apply to their
      operands: reduce modulo 2^32 and read the result as two's complement. */
  function ToInt32(x: int): (r: int)
    ensures IsInt32(r)
    ensures (x - r) % TwoTo32 == 0
    ensures IsInt32(x) ==> r == x
  {
    var m := x % TwoTo32;
    if m >= TwoTo31 then m - TwoTo32 else m
  }

  /** One loop step as written: `(hash << 5)` is `ToInt32(hash * 32)`, the
      subtraction and the addition are exact on doubles of this size, and
      `hash & hash` is `ToInt32` of the sum. */
  function Step(hash: int, code: CodeUnit): int {
    ToInt32(ToInt32(hash * 32) - hash + code)
  }

  /** The value of `hash` after the loop has read `units`. */
  function Fold(units: seq<CodeUnit>): (h: int)
    ensures IsInt32(h)
  {
    if |units| == 0 then 0 else Step(Fold(units[..|units| - 1]), units[|units| - 1])
  }

  function Abs(x: int): nat {
    if x < 0 then -x else x
  }

  /** `hashStringToId` on the code units of a string. */
  function HashId(units: seq<CodeUnit>): (id: nat)
    ensures id <= TwoTo31
    ensures |units| == 0 ==> id == 0
  {
    Abs(Fold(units))
  }

  /* ---------- Reference definition ---------- */

  /** The Java-style polynomial hash without any wrap-around:
      `sum of units[i] * 31^(n - 1 - i)`. */
  function Poly(units: seq<CodeUnit>): int {
    if |units| == 0 then 0 else 31 * Poly(units[..|units| - 1]) + units[|units| - 1]
  }

  /** Two integers that agree modulo 2^32 have the same ToInt32. */
  lemma ToInt32Congruent(a: int, b: int)
    requires (a - b) % TwoTo32 == 0
    ensures ToInt32(a) == ToInt32(b)
  {
    var k := (a - b) / TwoTo32;
    assert a == b + k * TwoTo32;
    ModShift(b, k);
  }

  lemma ModShift(b: int, k: int)
    ensures (b + k * TwoTo32) % TwoTo32 == b % TwoTo32
  {
  }

  /** The step as written is `ToInt32(31 * hash + code)`: the wrap inside the
      shift does not change the result. */
  lemma StepIsWrappedPoly(hash: int, code: CodeUnit)
    ensures Step(hash, code) == ToInt32(31 * hash + code)
  {
    var shifted := ToInt32(hash * 32);
    assert (hash * 32 - shifted) % TwoTo32 == 0;
    ToInt32Congruent(shifted - hash + code, 31 * hash + code);
  }

  /** Wrapping once at the end gives what wrapping after every step gives:
      the loop computes the polynomial hash modulo 2^32, as a signed value. */
  lemma {:induction false} FoldIsWrappedPoly(units: seq<CodeUnit>)
    ensures Fold(units) == ToInt32(Poly(units))
    decreases |units|
  {
    if |units| > 0 {
      var init := units[..|units| - 1];
      var c := units[|units| - 1];
      FoldIsWrappedPoly(init);
      StepIsWrappedPoly(Fold(init), c);
      var p := Poly(init);
      assert (p - ToInt32(p)) % TwoTo32 == 0;
      assert (31 * ToInt32(p) + c - (31 * p + c)) % TwoTo32 == 0 by {
        ScaleCongruence(p, ToInt32(p));
      }
      ToInt32Congruent(31 * ToInt32(p) + c, 31 * p + c);
    }
  }

  lemma ScaleCongruence(p: int, q: int)
    requires (p - q) % TwoTo32 == 0
    ensures (31 * q - 31 * p) % TwoTo32 == 0
  {
    var k := (p - q) / TwoTo32;
    assert p - q == k * TwoTo32;
    assert 31 * q - 31 * p == (-31 * k) * TwoTo32;
    ModShift(0, -31 * k);
  }

  /** `hashStringToId` is `Math.abs` of the wrapped polynomial hash. */
  lemma HashIdIsPoly(units: seq<CodeUnit>)
    ensures HashId(units) == Abs(ToInt32(Poly(units)))
  {
    FoldIsWrappedPoly(units);
  }

  /** While the polynomial stays below 2^31 no wrap-around happens, so the
      point id is the plain polynomial hash. */
  lemma HashIdOfSmall(units: seq<CodeUnit>)
    requires 0 <= Poly(units) < TwoTo31
    ensures HashId(units) == Poly(units)
  {
    FoldIsWrappedPoly(units);
  }

  /** The code units JavaScript stores for a string: a character outside the
      Basic Multilingual Plane becomes a surrogate pair. */
  function Utf16(s: string): (units: seq<CodeUnit>)
    ensures |units| >= |s|
  {
    if |s| == 0 then []
    else Utf16Char(s[0]) + Utf16(s[1..])
  }

  function Utf16Char(c: char): (units: seq<CodeUnit>)
    ensures 1 <= |units| <= 2
  {
    var v := c as int;
    if v < 0x1_0000 then [v]
    else [0xD800 + (v - 0x1_0000) / 0x400, 0xDC00 + (v - 0x1_0000) % 0x400]
  }

  /** A string of Basic Multilingual Plane characters is one code unit per
      character, each the character's own value. */
  lemma {:induction false} Utf16OfBmp(s: string)
    requires forall i :: 0 <= i < |s| ==> (s[i] as int) < 0x1_0000
    ensures |Utf16(s)| == |s|
    ensures forall i :: 0 <= i < |s| ==> Utf16(s)[i] == s[i] as int
    decreases |s|
  {
    if |s| > 0 {
      Utf16OfBmp(s[1..]);
      assert Utf16(s) == [s[0] as int] + Utf16(s[1..]);
    }
  }

  /** The point id of a chunk id. */
  function PointId(chunkId: string): (id: nat)
    ensures id <= TwoTo31
  {
    HashId(Utf16(chunkId))
  }

  /** Different chunk ids can share a point id: "an" and "c0" both hash to
      97 * 31 + 110 == 99 * 31 + 48 == 3117, so the later point overwrites
      the earlier one in the collection. */
  lemma PointIdCollides()
    ensures "an" != "c0" && PointId("an") == PointId("c0") == 3117
  {
    assert "an"[0] as int == 97 && "an"[1] as int == 110;
    assert "c0"[0] as int == 99 && "c0"[1] as int == 48;
    Utf16OfBmp("an");
    Utf16OfBmp("c0");
    assert Utf16("an") == [97, 110];
    assert Utf16("c0") == [99, 48];
    HashIdOfSmall([97, 110]);
    HashIdOfSmall([99, 48]);
  }

  /** The loop of `hashStringToId`, over the code units. */
  method HashStringToId(units: seq<CodeUnit>) returns (id: nat)
    ensures id == HashId(units)
    ensures id <= TwoTo31
  {
    var hash := 0;
    var i := 0;
    while i < |units|
      invariant 0 <= i <= |units|
      invariant hash == Fold(units[..i])
    {
      assert units[..i + 1][..i] == units[..i];
      hash := ToInt32(ToInt32(hash * 32) - hash + units[i]);
      i := i + 1;
    }
    assert units[..i] == units;
    id := if hash < 0 then -hash else hash;
  }
}
