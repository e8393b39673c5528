/** Character classes and whole-string helpers shared by the text transforms.
    Case mapping is ASCII-only and the whitespace set is the six ASCII
    whitespace characters (space, tab, line feed, vertical tab, form feed,
    carriage return). */
module Chars {

  predicate IsSpace(c: char) {
    c == ' ' || c == '\t' || c == '\n' || c == '\U{B}' || c == '\U{C}' || c == '\r'
  }

  predicate IsLowerAlpha(c: char) {
    'a' <= c <= 'z'
  }

  predicate IsUpperAlpha(c: char) {
    'A' <= c <= 'Z'
  }

  predicate IsDigit(c: char) {
    '0' <= c <= '9'
  }

  /** A character the slug keeps: the class `[a-z0-9]`. */
  predicate IsSlugAlnum(c: char) {
    IsLowerAlpha(c) || IsDigit(c)
  }

  /** The regular-expression class `\w` (without the `u` flag). */
  predicate IsWordChar(c: char) {
    IsLowerAlpha(c) || IsUpperAlpha(c) || IsDigit(c) || c == '_'
  }

  function ToLower(c: char): (r: char)
    ensures IsUpperAlpha(c) ==> IsLowerAlpha(r)
    ensures !IsUpperAlpha(c) ==> r == c
  {
    if IsUpperAlpha(c) then (c as int + 32) as char else c
  }

  function ToUpper(c: char): (r: char)
    ensures IsLowerAlpha(c) ==> IsUpperAlpha(r)
    ensures !IsLowerAlpha(c) ==> r == c
  {
    if IsLowerAlpha(c) then (c as int - 32) as char else c
  }

  /** `String.prototype.toLowerCase`, restricted to ASCII letters. */
  function Lower(s: string): (r: string)
    ensures |r| == |s|
    ensures forall i :: 0 <= i < |s| ==> r[i] == ToLower(s[i])
  {
    if |s| == 0 then "" else [ToLower(s[0])] + Lower(s[1..])
  }

  /** Case-insensitive equality of two characters, as a regular expression with
      the `i` flag compares them. */
  predicate EqCI(a: char, b: char) {
    ToLower(a) == ToLower(b)
  }

  /** `s` begins with `lit`, ignoring ASCII case. */
  predicate StartsWithCI(s: string, lit: string) {
    |lit| <= |s| && forall k :: 0 <= k < |lit| ==> EqCI(s[k], lit[k])
  }

  /** `lit` occurs in `s` at position `i`, ignoring ASCII case. */
  predicate MatchAtCI(s: string, lit: string, i: nat) {
    i + |lit| <= |s| && forall k :: 0 <= k < |lit| ==> EqCI(s[i + k], lit[k])
  }

  /** `/lit/i.test(s)`: `lit` occurs somewhere in `s`, ignoring ASCII case. */
  predicate ContainsCI(s: string, lit: string) {
    exists i: nat :: i <= |s| && MatchAtCI(s, lit, i)
  }

  /** The search `RegExp.prototype.test` performs for a pattern without
      metacharacters: try every start position, compare character by
      character. */
  method TestCI(s: string, lit: string) returns (found: bool)
    ensures found <==> ContainsCI(s, lit)
  {
    if |lit| > |s| {
      return false;
    }
    var i := 0;
    while i <= |s| - |lit|
      invariant 0 <= i <= |s| - |lit| + 1
      invariant forall j: nat :: j < i ==> !MatchAtCI(s, lit, j)
    {
      var k := 0;
      while k < |lit| && EqCI(s[i + k], lit[k])
        invariant 0 <= k <= |lit|
        invariant forall m :: 0 <= m < k ==> EqCI(s[i + m], lit[m])
      {
        k := k + 1;
      }
      if k == |lit| {
        assert MatchAtCI(s, lit, i);
        return true;
      }
      i := i + 1;
    }
    forall j: nat
      ensures !MatchAtCI(s, lit, j)
    {
      if j >= i {
        assert j + |lit| > |s|;
      }
    }
    return false;
  }

  /** Drops the leading run of whitespace: what `\s*` consumes greedily. */
  function TrimStart(s: string): (r: string)
    ensures |r| <= |s| && r == s[|s| - |r|..]
    ensures forall i :: 0 <= i < |s| - |r| ==> IsSpace(s[i])
    ensures |r| > 0 ==> !IsSpace(r[0])
  {
    if |s| > 0 && IsSpace(s[0]) then TrimStart(s[1..]) else s
  }

  /** Drops the trailing run of whitespace. */
  function TrimEnd(s: string): (r: string)
    ensures |r| <= |s| && r == s[..|r|]
    ensures forall i :: |r| <= i < |s| ==> IsSpace(s[i])
    ensures |r| > 0 ==> !IsSpace(r[|r| - 1])
  {
    if |s| > 0 && IsSpace(s[|s| - 1]) then TrimEnd(s[..|s| - 1]) else s
  }

  /** `String.prototype.trim`. */
  function Trim(s: string): (r: string)
  {
    TrimEnd(TrimStart(s))
  }

  /** A string with no whitespace at either end. */
  predicate IsTrimmed(s: string) {
    |s| == 0 || (!IsSpace(s[0]) && !IsSpace(s[|s| - 1]))
  }

  /** Trim returns a trimmed infix of its input and removes only whitespace;
      a string that is already trimmed is left as it is. */
  lemma {:induction false} TrimSpec(s: string)
    ensures IsTrimmed(Trim(s))
    ensures exists a, b :: 0 <= a <= b <= |s| && Trim(s) == s[a..b]
              && (forall i :: 0 <= i < a ==> IsSpace(s[i]))
              && (forall i :: b <= i < |s| ==> IsSpace(s[i]))
    ensures IsTrimmed(s) ==> Trim(s) == s
  {
    var t := TrimStart(s);
    var a := |s| - |t|;
    var r := TrimEnd(t);
    var b := a + |r|;
    assert r == s[a..b];
    if |r| > 0 {
      assert r[0] == t[0];
    }
    forall i | b <= i < |s|
      ensures IsSpace(s[i])
    {
      assert s[i] == t[i - a];
    }
    if IsTrimmed(s) && |s| > 0 {
      assert t == s;
      assert r == t;
    }
  }

  /** A string with no whitespace at either end is its own trim. */
  lemma TrimFixed(s: string)
    requires IsTrimmed(s)
    ensures Trim(s) == s
  {
    assert TrimStart(s) == s;
  }

  /** `StartsWithCI` only looks at the first `|lit|` characters. */
  lemma StartsWithCIPrefix(s: string, p: string, lit: string)
    requires |lit| <= |p|
    ensures StartsWithCI(p + s, lit) <==> StartsWithCI(p, lit)
  {
    if StartsWithCI(p, lit) {
      forall k | 0 <= k < |lit|
        ensures EqCI((p + s)[k], lit[k])
      {
        assert (p + s)[k] == p[k];
      }
    }
    if StartsWithCI(p + s, lit) {
      forall k | 0 <= k < |lit|
        ensures EqCI(p[k], lit[k])
      {
        assert (p + s)[k] == p[k];
      }
    }
  }
}
