/** `slugify` (src/rag/normalize.js): the URL-safe form of a chunk title that
    chunk ids are built from. */
module Slug {
  import opened Chars

  const MaxSlugLength: nat := 80

  /** A character that may appear in a slug: `[a-z0-9]` or the separator. */
  predicate IsSlugChar(c: char) {
    IsSlugAlnum(c) || c == '-'
  }

  predicate AllSlugChars(s: string) {
    forall i :: 0 <= i < |s| ==> IsSlugChar(s[i])
  }

  /** Positions `i` and `i + 1` both hold a hyphen. */
  predicate HyphenPair(s: string, i: nat)
    requires i + 1 < |s|
  {
    s[i] == '-' && s[i + 1] == '-'
  }

  predicate NoDoubleHyphen(s: string) {
    forall i: nat :: i + 1 < |s| ==> !HyphenPair(s, i)
  }

  /** Everything slugify guarantees about its output. The last character may
      still be a hyphen: the length cut happens after the edge hyphens are
      stripped. */
  predicate SlugShaped(s: string) {
    && |s| <= MaxSlugLength
    && AllSlugChars(s)
    && NoDoubleHyphen(s)
    && (|s| > 0 ==> s[0] != '-')
  }

  /** Drops the leading run of characters outside `[a-z0-9]`. */
  function SkipRun(s: string): (r: string)
    ensures |r| <= |s| && r == s[|s| - |r|..]
    ensures |r| > 0 ==> IsSlugAlnum(r[0])
  {
    if |s| > 0 && !IsSlugAlnum(s[0]) then SkipRun(s[1..]) else s
  }

  /** `.replace(/[^a-z0-9]+/g, "-")`: every maximal run of characters outside
      `[a-z0-9]` becomes one hyphen. */
  function CollapseRuns(s: string): (r: string)
    ensures |r| <= |s|
    decreases |s|
  {
    if |s| == 0 then ""
    else if IsSlugAlnum(s[0]) then [s[0]] + CollapseRuns(s[1..])
    else "-" + CollapseRuns(SkipRun(s[1..]))
  }

  /** Collapsing leaves only `[a-z0-9]` and single hyphens, and starts with
      the first character when it is kept, else with the hyphen that replaced
      the run. */
  lemma {:induction false} CollapseRunsShape(s: string)
    ensures var r := CollapseRuns(s);
      && AllSlugChars(r) && NoDoubleHyphen(r)
      && (|s| > 0 ==> |r| > 0 && (if IsSlugAlnum(s[0]) then r[0] == s[0] else r[0] == '-'))
    decreases |s|
  {
    if |s| > 0 {
      var h := if IsSlugAlnum(s[0]) then s[0] else '-';
      var tail := if IsSlugAlnum(s[0]) then s[1..] else SkipRun(s[1..]);
      CollapseRunsShape(tail);
      ConsSlugShape(h, CollapseRuns(tail));
    }
  }

  /** Putting a slug character in front keeps the slug alphabet and the
      single hyphens, unless it is a hyphen in front of a hyphen. */
  lemma ConsSlugShape(h: char, t: string)
    requires IsSlugChar(h) && AllSlugChars(t) && NoDoubleHyphen(t)
    requires h == '-' && |t| > 0 ==> t[0] != '-'
    ensures AllSlugChars([h] + t) && NoDoubleHyphen([h] + t)
  {
    var r := [h] + t;
    forall i: nat | i + 1 < |r|
      ensures !HyphenPair(r, i)
    {
      if i > 0 {
        assert !HyphenPair(t, i - 1);
      }
    }
  }

  /** `.replace(/(^-|-$)/g, "")`: removes one leading and one trailing hyphen. */
  function StripEdgeHyphens(s: string): string
  {
    var a := if |s| > 0 && s[0] == '-' then s[1..] else s;
    if |a| > 0 && a[|a| - 1] == '-' then a[..|a| - 1] else a
  }

  /** Stripping keeps the alphabet and the single hyphens, and leaves no
      hyphen at either end. */
  lemma StripEdgeHyphensShape(s: string)
    requires AllSlugChars(s) && NoDoubleHyphen(s)
    ensures var r := StripEdgeHyphens(s);
      AllSlugChars(r) && NoDoubleHyphen(r) && (|r| > 0 ==> r[0] != '-' && r[|r| - 1] != '-')
  {
    var lo := if |s| > 0 && s[0] == '-' then 1 else 0;
    var a := s[lo..];
    var hi := if |a| > 0 && a[|a| - 1] == '-' then |s| - 1 else |s|;
    InfixShape(s, lo, hi);
    assert StripEdgeHyphens(s) == s[lo..hi];
    if |s| > 1 && s[0] == '-' {
      assert !HyphenPair(s, 0);
    }
    if |a| > 1 && a[|a| - 1] == '-' {
      assert !HyphenPair(s, |s| - 2);
    }
  }

  /** Any infix of a string with the slug alphabet and single hyphens has
      both too. */
  lemma InfixShape(s: string, lo: nat, hi: nat)
    requires lo <= hi <= |s|
    requires AllSlugChars(s) && NoDoubleHyphen(s)
    ensures AllSlugChars(s[lo..hi]) && NoDoubleHyphen(s[lo..hi])
  {
    var r := s[lo..hi];
    forall i: nat | i + 1 < |r|
      ensures !HyphenPair(r, i)
    {
      assert !HyphenPair(s, lo + i);
    }
  }

  /** `.slice(0, 80)`. */
  function Cut(s: string): (r: string)
    ensures |r| <= MaxSlugLength && |r| <= |s| && r == s[..|r|]
    ensures |s| <= MaxSlugLength ==> r == s
  {
    if |s| <= MaxSlugLength then s else s[..MaxSlugLength]
  }

  /** `slugify(s)`: lowercase, trim, collapse runs of non-alphanumerics into a
      hyphen, strip the edge hyphens, cut to 80 characters. */
  function Slugify(s: string): string
  {
    Cut(StripEdgeHyphens(CollapseRuns(Trim(Lower(s)))))
  }

  /** The result is made of `a-z`, `0-9` and single hyphens, is at most 80
      characters long, and never starts with a hyphen. */
  lemma SlugifyShape(s: string)
    ensures SlugShaped(Slugify(s))
  {
    var c := CollapseRuns(Trim(Lower(s)));
    CollapseRunsShape(Trim(Lower(s)));
    StripEdgeHyphensShape(c);
    var stripped := StripEdgeHyphens(c);
    InfixShape(stripped, 0, |Cut(stripped)|);
  }

  predicate AllSlugAlnum(s: string) {
    forall i :: 0 <= i < |s| ==> IsSlugAlnum(s[i])
  }

  predicate NoSlugAlnum(s: string) {
    forall i :: 0 <= i < |s| ==> !IsSlugAlnum(s[i])
  }

  lemma CollapseRunsHead(s: string)
    requires |s| > 0 && IsSlugAlnum(s[0])
    ensures CollapseRuns(s) == [s[0]] + CollapseRuns(s[1..])
  {
  }

  lemma {:induction false} CollapseRunsAlnum(a: string, b: string)
    requires AllSlugAlnum(a)
    ensures CollapseRuns(a + b) == a + CollapseRuns(b)
    decreases |a|
  {
    if |a| > 0 {
      CollapseRunsHead(a + b);
      assert (a + b)[1..] == a[1..] + b;
      CollapseRunsAlnum(a[1..], b);
      assert a == [a[0]] + a[1..];
    } else {
      assert a + b == b;
    }
  }

  lemma {:induction false} SkipRunOver(a: string, b: string)
    requires NoSlugAlnum(a)
    requires |b| > 0 && IsSlugAlnum(b[0])
    ensures SkipRun(a + b) == b
    decreases |a|
  {
    if |a| > 0 {
      assert (a + b)[1..] == a[1..] + b;
      SkipRunOver(a[1..], b);
    } else {
      assert a + b == b;
    }
  }

  lemma LowerAppend(a: string, b: string)
    ensures Lower(a + b) == Lower(a) + Lower(b)
  {
    var l, r := Lower(a + b), Lower(a) + Lower(b);
    forall i | 0 <= i < |l|
      ensures l[i] == r[i]
    {
      if i < |a| {
        assert (a + b)[i] == a[i];
      } else {
        assert (a + b)[i] == b[i - |a|];
      }
    }
  }

  lemma CollapseRunsSeparator(sep: string, b: string)
    requires |sep| > 0 && NoSlugAlnum(sep)
    requires |b| > 0 && IsSlugAlnum(b[0])
    ensures CollapseRuns(sep + b) == "-" + CollapseRuns(b)
  {
    assert (sep + b)[1..] == sep[1..] + b;
    SkipRunOver(sep[1..], b);
  }

  /** Collapsing runs in word, separator, word. */
  lemma CollapseTwoWords(la: string, ls: string, lb: string)
    requires |la| > 0 && AllSlugAlnum(la) && |lb| > 0 && AllSlugAlnum(lb)
    requires |ls| > 0 && NoSlugAlnum(ls)
    ensures CollapseRuns(la + ls + lb) == la + "-" + lb
  {
    assert la + ls + lb == la + (ls + lb);
    CollapseRunsAlnum(la, ls + lb);
    CollapseRunsSeparator(ls, lb);
    CollapseRunsAlnum(lb, "");
    assert lb + "" == lb;
  }

  lemma TrimAlnumEdges(l: string)
    requires |l| > 0 && IsSlugAlnum(l[0]) && IsSlugAlnum(l[|l| - 1])
    ensures Trim(l) == l
  {
    TrimSpec(l);
  }

  lemma LowerTwoWords(a: string, sep: string, b: string)
    requires |a| > 0 && |b| > 0 && AllSlugAlnum(Lower(a)) && AllSlugAlnum(Lower(b))
    requires |sep| > 0 && NoSlugAlnum(Lower(sep))
    ensures CollapseRuns(Trim(Lower(a + sep + b))) == Lower(a) + "-" + Lower(b)
  {
    var la, ls, lb := Lower(a), Lower(sep), Lower(b);
    LowerAppend(a, sep);
    LowerAppend(a + sep, b);
    var l := la + ls + lb;
    assert l[0] == la[0] && l[|l| - 1] == lb[|lb| - 1];
    TrimAlnumEdges(l);
    CollapseTwoWords(la, ls, lb);
  }

  /** Two words of letters and digits joined by a run of other characters
      slugify to the lowercased words joined by a single hyphen, cut to 80
      characters. */
  lemma SlugifyTwoWords(a: string, sep: string, b: string)
    requires |a| > 0 && |b| > 0 && AllSlugAlnum(Lower(a)) && AllSlugAlnum(Lower(b))
    requires |sep| > 0 && NoSlugAlnum(Lower(sep))
    ensures Slugify(a + sep + b) == Cut(Lower(a) + "-" + Lower(b))
  {
    LowerTwoWords(a, sep, b);
    var la, lb := Lower(a), Lower(b);
    JoinedEdges(la, lb);
    StripKeeps(la + "-" + lb);
  }

  lemma JoinedEdges(la: string, lb: string)
    requires |la| > 0 && |lb| > 0 && AllSlugAlnum(la) && AllSlugAlnum(lb)
    ensures var c := la + "-" + lb; c[0] != '-' && c[|c| - 1] != '-'
  {
    var c := la + "-" + lb;
    assert c[0] == la[0] && c[|c| - 1] == lb[|lb| - 1];
  }

  /** Without a hyphen at either end there is nothing to strip. */
  lemma StripKeeps(s: string)
    requires |s| > 0 ==> s[0] != '-' && s[|s| - 1] != '-'
    ensures StripEdgeHyphens(s) == s
  {
  }

  /** A trailing hyphen survives the cut: when the first word is 79
      characters long, the 80-character slug ends with the hyphen that
      replaced the separator. */
  lemma CutLeavesHyphen(a: string, sep: string, b: string)
    requires |a| == MaxSlugLength - 1 && |b| > 0
    requires AllSlugAlnum(Lower(a)) && AllSlugAlnum(Lower(b))
    requires |sep| > 0 && NoSlugAlnum(Lower(sep))
    ensures Slugify(a + sep + b) == Lower(a) + "-"
    ensures Slugify(a + sep + b)[MaxSlugLength - 1] == '-'
  {
    SlugifyTwoWords(a, sep, b);
    var c := Lower(a) + "-" + Lower(b);
    assert c[..MaxSlugLength] == Lower(a) + "-";
  }

  /** Removes a single trailing hyphen, if there is one. */
  function DropTrailingHyphen(s: string): string
  {
    if |s| > 0 && s[|s| - 1] == '-' then s[..|s| - 1] else s
  }

  /** On a string that already has slug shape, collapsing runs changes nothing. */
  lemma {:induction false} CollapseRunsFixed(s: string)
    requires AllSlugChars(s) && NoDoubleHyphen(s)
    ensures CollapseRuns(s) == s
    decreases |s|
  {
    if |s| > 0 {
      var rest := s[1..];
      InfixShape(s, 1, |s|);
      assert s[1..|s|] == rest;
      CollapseRunsFixed(rest);
      if !IsSlugAlnum(s[0]) && |rest| > 0 {
        assert !HyphenPair(s, 0);
      }
      assert s == [s[0]] + rest;
    }
  }

  lemma LowerFixed(s: string)
    requires AllSlugChars(s)
    ensures Lower(s) == s
  {
  }

  /** Slugifying a slug-shaped string only drops a trailing hyphen. */
  lemma SlugifyOfSlugShaped(t: string)
    requires SlugShaped(t)
    ensures Slugify(t) == DropTrailingHyphen(t)
  {
    SlugTrimFixed(t);
    CollapseRunsFixed(t);
    StripOfSlugShaped(t);
  }

  lemma StripOfSlugShaped(t: string)
    requires SlugShaped(t)
    ensures StripEdgeHyphens(t) == DropTrailingHyphen(t)
  {
  }

  /** Lowercasing and trimming leave a slug-shaped string alone. */
  lemma SlugTrimFixed(t: string)
    requires SlugShaped(t)
    ensures Trim(Lower(t)) == t
  {
    LowerFixed(t);
    SlugTrimmed(t);
    TrimFixed(t);
  }

  lemma SlugTrimmed(t: string)
    requires AllSlugChars(t)
    ensures IsTrimmed(t)
  {
    if |t| > 0 {
      assert IsSlugChar(t[0]) && IsSlugChar(t[|t| - 1]);
    }
  }

  /** A second slugify is a no-op exactly when the first result does not end
      in a hyphen; otherwise it drops that hyphen. */
  lemma SlugifyTwice(s: string)
    ensures Slugify(Slugify(s)) == DropTrailingHyphen(Slugify(s))
    ensures |Slugify(s)| > 0 && Slugify(s)[|Slugify(s)| - 1] == '-' ==> Slugify(Slugify(s)) != Slugify(s)
    ensures (|Slugify(s)| == 0 || Slugify(s)[|Slugify(s)| - 1] != '-') ==> Slugify(Slugify(s)) == Slugify(s)
  {
    SlugifyShape(s);
    SlugifyOfSlugShaped(Slugify(s));
  }
}
