/** `cleanText` (src/rag/normalize.js): newline normalisation and trimming
    applied to every chunk text before the first-person fixups. */
module Clean {
  import opened Chars
  import opened Wrappers

  predicate NoCR(s: string) {
    forall i :: 0 <= i < |s| ==> s[i] != '\r'
  }

  /** Positions `i`, `i + 1` and `i + 2` all hold a line feed. */
  predicate NewlineTriple(s: string, i: nat)
    requires i + 2 < |s|
  {
    s[i] == '\n' && s[i + 1] == '\n' && s[i + 2] == '\n'
  }

  /** No three consecutive line feeds: at most one blank line in a row. */
  predicate NoTripleNewline(s: string) {
    forall i: nat :: i + 2 < |s| ==> !NewlineTriple(s, i)
  }

  /** `.replace(/\r\n|\r/g, "\n")`: every CRLF pair and every lone CR becomes LF. */
  function UnifyNewlines(s: string): (r: string)
    ensures NoCR(r)
    ensures |r| <= |s|
  {
    if |s| == 0 then ""
    else if s[0] == '\r' then "\n" + UnifyNewlines(if |s| > 1 && s[1] == '\n' then s[2..] else s[1..])
    else [s[0]] + UnifyNewlines(s[1..])
  }

  /** Drops the leading run of line feeds. */
  function SkipNewlines(s: string): (r: string)
    ensures |r| <= |s| && r == s[|s| - |r|..]
    ensures forall i :: 0 <= i < |s| - |r| ==> s[i] == '\n'
    ensures |r| > 0 ==> r[0] != '\n'
  {
    if |s| > 0 && s[0] == '\n' then SkipNewlines(s[1..]) else s
  }

  /** `.replace(/\n{2,}/g, "\n\n")`: a run of two or more line feeds becomes
      exactly two; a single line feed stays. */
  function CollapseBlankLines(s: string): (r: string)
    decreases |s|
  {
    if |s| == 0 then ""
    else if s[0] != '\n' then [s[0]] + CollapseBlankLines(s[1..])
    else
      var rest := SkipNewlines(s);
      (if |s| - |rest| >= 2 then "\n\n" else "\n") + CollapseBlankLines(rest)
  }

  /** The collapsed text has no triple line feed, and starts with the
      original's first character when that is not a line feed. */
  lemma {:induction false} CollapseBlankLinesShape(s: string)
    ensures NoTripleNewline(CollapseBlankLines(s))
    ensures |s| > 0 && s[0] != '\n' ==> |CollapseBlankLines(s)| > 0 && CollapseBlankLines(s)[0] == s[0]
    decreases |s|
  {
    if |s| > 0 && s[0] != '\n' {
      CollapseBlankLinesShape(s[1..]);
      KeptCharStep(s);
    } else if |s| > 0 {
      CollapseBlankLinesShape(SkipNewlines(s));
      NewlineRunStep(s);
    }
  }

  lemma KeptCharStep(s: string)
    requires |s| > 0 && s[0] != '\n'
    requires NoTripleNewline(CollapseBlankLines(s[1..]))
    ensures NoTripleNewline(CollapseBlankLines(s))
    ensures |CollapseBlankLines(s)| > 0 && CollapseBlankLines(s)[0] == s[0]
  {
    var tail := CollapseBlankLines(s[1..]);
    ConsKeepsShape([s[0]], tail);
    assert CollapseBlankLines(s) == [s[0]] + tail;
  }

  lemma NewlineRunStep(s: string)
    requires |s| > 0 && s[0] == '\n'
    requires var rest := SkipNewlines(s);
      && NoTripleNewline(CollapseBlankLines(rest))
      && (|rest| > 0 && rest[0] != '\n' ==> |CollapseBlankLines(rest)| > 0 && CollapseBlankLines(rest)[0] == rest[0])
    ensures NoTripleNewline(CollapseBlankLines(s))
  {
    var rest := SkipNewlines(s);
    var tail := CollapseBlankLines(rest);
    var run := if |s| - |rest| >= 2 then "\n\n" else "\n";
    ConsKeepsShape(run, tail);
    assert CollapseBlankLines(s) == run + tail;
  }

  /** Prepending a short head to a shaped tail keeps the shape, as long as a
      line-feed head is not followed by another line feed. */
  lemma ConsKeepsShape(head: string, tail: string)
    requires head == "\n\n" || head == "\n" || (|head| == 1 && head[0] != '\n')
    requires NoTripleNewline(tail)
    requires head[0] == '\n' && |tail| > 0 ==> tail[0] != '\n'
    ensures NoTripleNewline(head + tail)
  {
    var s := head + tail;
    forall i: nat | i + 2 < |s|
      ensures !NewlineTriple(s, i)
    {
      if i >= |head| {
        assert !NewlineTriple(tail, i - |head|);
      } else if head[0] != '\n' {
        assert s[0] == head[0];
      } else {
        assert s[|head|] == tail[0];
      }
    }
  }

  /** Collapsing blank lines only ever writes line feeds, so it introduces no
      carriage return. */
  lemma {:induction false} CollapseBlankLinesNoCR(s: string)
    requires NoCR(s)
    ensures NoCR(CollapseBlankLines(s))
    decreases |s|
  {
    if |s| == 0 {
    } else if s[0] != '\n' {
      CollapseBlankLinesNoCR(s[1..]);
    } else {
      var rest := SkipNewlines(s);
      CollapseBlankLinesNoCR(rest);
    }
  }

  /** `cleanText(s)`: the empty string for a falsy value; otherwise unify line
      endings, collapse blank-line runs and trim. The result has no carriage
      return, at most one blank line in a row and no surrounding whitespace. */
  function CleanText(f: Field): (r: string)
    ensures !Truthy(f) ==> r == ""
  {
    if !Truthy(f) then "" else Trim(CollapseBlankLines(UnifyNewlines(f.value)))
  }

  /** The cleaned text has no carriage return, at most one blank line in a
      row and no surrounding whitespace. */
  lemma CleanTextShape(f: Field)
    ensures var r := CleanText(f); NoCR(r) && NoTripleNewline(r) && IsTrimmed(r)
  {
    if Truthy(f) {
      var collapsed := CollapseBlankLines(UnifyNewlines(f.value));
      CollapseBlankLinesShape(UnifyNewlines(f.value));
      TrimSpec(collapsed);
      CollapseBlankLinesNoCR(UnifyNewlines(f.value));
      InfixKeepsShape(collapsed, Trim(collapsed));
    }
  }

  /** Taking an infix keeps both "no CR" and "no triple line feed". */
  lemma InfixKeepsShape(s: string, t: string)
    requires NoCR(s) && NoTripleNewline(s)
    requires exists a, b :: 0 <= a <= b <= |s| && t == s[a..b]
    ensures NoCR(t) && NoTripleNewline(t)
  {
    var a, b :| 0 <= a <= b <= |s| && t == s[a..b];
    forall i | 0 <= i < |t|
      ensures t[i] != '\r'
    {
      assert t[i] == s[a + i];
    }
    forall i: nat | i + 2 < |t|
      ensures !NewlineTriple(t, i)
    {
      assert !NewlineTriple(s, a + i);
    }
  }

  lemma {:induction false} UnifyNewlinesFixed(s: string)
    requires NoCR(s)
    ensures UnifyNewlines(s) == s
  {
    if |s| > 0 {
      UnifyNewlinesFixed(s[1..]);
      assert s == [s[0]] + s[1..];
    }
  }

  lemma {:induction false} CollapseBlankLinesFixed(s: string)
    requires NoTripleNewline(s)
    ensures CollapseBlankLines(s) == s
    decreases |s|
  {
    if |s| == 0 {
    } else if s[0] != '\n' {
      SuffixKeepsShape(s, 1);
      CollapseBlankLinesFixed(s[1..]);
      assert s == [s[0]] + s[1..];
    } else {
      var rest := SkipNewlines(s);
      ShortNewlineRun(s);
      SuffixKeepsShape(s, |s| - |rest|);
      CollapseBlankLinesFixed(rest);
    }
  }

  lemma SuffixKeepsShape(s: string, k: nat)
    requires k <= |s| && NoTripleNewline(s)
    ensures NoTripleNewline(s[k..])
  {
    var t := s[k..];
    forall i: nat | i + 2 < |t|
      ensures !NewlineTriple(t, i)
    {
      assert !NewlineTriple(s, k + i);
    }
  }

  /** In a text with no triple line feed, a leading run of line feeds is one
      or two long, and collapsing writes it back unchanged. */
  lemma ShortNewlineRun(s: string)
    requires NoTripleNewline(s) && |s| > 0 && s[0] == '\n'
    ensures var rest := SkipNewlines(s);
      var run := if |s| - |rest| >= 2 then "\n\n" else "\n";
      s == run + rest
  {
    assert SkipNewlines(s) == SkipNewlines(s[1..]);
    if |s| == 1 || s[1] != '\n' {
      assert SkipNewlines(s[1..]) == s[1..];
      assert s == "\n" + s[1..];
    } else {
      if |s| >= 3 {
        assert !NewlineTriple(s, 0);
      }
      assert s[1..][1..] == s[2..];
      assert SkipNewlines(s[1..]) == SkipNewlines(s[2..]) == s[2..];
      assert s == "\n\n" + s[2..];
    }
  }

  /** Cleaning is idempotent: a cleaned text is its own cleaning. */
  lemma CleanTextIdempotent(f: Field)
    ensures CleanText(Some(CleanText(f))) == CleanText(f)
  {
    var c := CleanText(f);
    CleanTextShape(f);
    if c != "" {
      UnifyNewlinesFixed(c);
      CollapseBlankLinesFixed(c);
      TrimSpec(c);
    }
  }

  /** A prefix with no carriage return passes through `UnifyNewlines` untouched. */
  lemma {:induction false} UnifyNewlinesKeepsPrefix(p: string, q: string)
    requires forall i :: 0 <= i < |p| ==> p[i] != '\r'
    ensures UnifyNewlines(p + q) == p + UnifyNewlines(q)
  {
    if |p| > 0 {
      assert (p + q)[0] == p[0];
      assert (p + q)[1..] == p[1..] + q;
      assert UnifyNewlines(p + q) == [p[0]] + UnifyNewlines(p[1..] + q);
      UnifyNewlinesKeepsPrefix(p[1..], q);
      assert p == [p[0]] + p[1..];
      assert [p[0]] + (p[1..] + UnifyNewlines(q)) == p + UnifyNewlines(q);
    } else {
      assert p + q == q;
    }
  }

  lemma CollapseBlankLinesHead(s: string)
    requires |s| > 0 && s[0] != '\n'
    ensures CollapseBlankLines(s) == [s[0]] + CollapseBlankLines(s[1..])
  {
  }

  /** A prefix with no line feed passes through `CollapseBlankLines` untouched. */
  lemma {:induction false} CollapseBlankLinesKeepsPrefix(p: string, q: string)
    requires forall i :: 0 <= i < |p| ==> p[i] != '\n'
    ensures CollapseBlankLines(p + q) == p + CollapseBlankLines(q)
    decreases |p|
  {
    if |p| > 0 {
      assert (p + q)[0] == p[0];
      assert (p + q)[1..] == p[1..] + q;
      CollapseBlankLinesHead(p + q);
      CollapseBlankLinesKeepsPrefix(p[1..], q);
      assert p == [p[0]] + p[1..];
      assert [p[0]] + (p[1..] + CollapseBlankLines(q)) == p + CollapseBlankLines(q);
    } else {
      assert p + q == q;
    }
  }

  /** Cleaning keeps a leading sentence that starts and ends with a visible
      character and holds no line break: the generated chunk texts keep their
      opening sentence verbatim. */
  lemma CleanTextKeepsSentence(p: string, q: string)
    requires |p| > 0 && !IsSpace(p[0]) && !IsSpace(p[|p| - 1])
    requires forall i :: 0 <= i < |p| ==> p[i] != '\r' && p[i] != '\n'
    ensures |CleanText(Some(p + q))| >= |p|
    ensures CleanText(Some(p + q))[..|p|] == p
  {
    UnifyNewlinesKeepsPrefix(p, q);
    CollapseBlankLinesKeepsPrefix(p, UnifyNewlines(q));
    var x := p + CollapseBlankLines(UnifyNewlines(q));
    assert x[0] == p[0];
    assert TrimStart(x) == x;
    var r := TrimEnd(x);
    assert x[|p| - 1] == p[|p| - 1];
    assert |r| >= |p|;
    assert r[..|p|] == x[..|p|];
  }
}
