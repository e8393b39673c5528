/** `toFirstPerson` (src/rag/normalize.js): the grammar guard every chunk text
    passes through. It cleans the text, applies seven anchored regular
    expression replacements in a fixed order, each one seeing the output of
    the previous, and finally uppercases a leading word character. */
module FirstPerson {
  import opened Chars
  import opened Wrappers
  import opened Clean

  /** The match of `^i\s+` (case-insensitive): when `s` starts with an `i` or
      `I` followed by whitespace, the text after the whole whitespace run. */
  function AfterI(s: string): (r: Option<string>)
    ensures r.Some? ==> |r.value| < |s| && (|r.value| > 0 ==> !IsSpace(r.value[0]))
  {
    if |s| >= 2 && EqCI(s[0], 'i') && IsSpace(s[1]) then Some(TrimStart(s[1..])) else None
  }

  /** `t` starts with the word `w` (any case) followed by whitespace. */
  predicate WordThenSpace(t: string, w: string) {
    |t| > |w| && StartsWithCI(t, w) && IsSpace(t[|w|])
  }

  /** `.replace(/^i\s+/i, "I ")` */
  function FixI(s: string): string {
    match AfterI(s)
    case Some(t) => "I " + t
    case None => s
  }

  /** `.replace(/^i\s+am\s+/i, "I am ")` */
  function FixIAm(s: string): string {
    match AfterI(s)
    case Some(t) => if WordThenSpace(t, "am") then "I am " + TrimStart(t[2..]) else s
    case None => s
  }

  /** `.replace(/^i\s+as\s+/i, "As a ")` */
  function FixIAs(s: string): string {
    match AfterI(s)
    case Some(t) => if WordThenSpace(t, "as") then "As a " + TrimStart(t[2..]) else s
    case None => s
  }

  /** `.replace(/^i\s+when/i, "When")` */
  function FixIWhen(s: string): string {
    match AfterI(s)
    case Some(t) => if StartsWithCI(t, "when") then "When" + t[4..] else s
    case None => s
  }

  /** `.replace(/^as a/i, "As a")` */
  function FixAsA(s: string): string {
    if StartsWithCI(s, "as a") then "As a" + s[4..] else s
  }

  /** `.replace(/^when i/i, "When I")` */
  function FixWhenI(s: string): string {
    if StartsWithCI(s, "when i") then "When I" + s[6..] else s
  }

  /** `.replace(/^\w/, c => c.toUpperCase())`: only the first character can
      change, and it is never left as a lowercase letter. */
  function CapitalizeFirst(s: string): (r: string)
    ensures |r| == |s| && (|s| > 0 ==> r[1..] == s[1..])
    ensures |r| > 0 ==> !IsLowerAlpha(r[0]) && EqCI(r[0], s[0])
  {
    if |s| > 0 && IsWordChar(s[0]) then [ToUpper(s[0])] + s[1..] else s
  }

  /** `toFirstPerson(text)`: never starts with a lowercase ASCII letter. */
  function ToFirstPerson(text: Field): (r: string)
    ensures |r| > 0 ==> !IsLowerAlpha(r[0])
  {
    CapitalizeFirst(Fixups(CleanText(text)))
  }

  /** What the rewrite chain does to a cleaned text, written as one table of
      cases on how the text begins rather than as a sequence of rewrites. */
  function ExpectedRewrite(c: string): string {
    match AfterI(c)
    case Some(t) =>
      if WordThenSpace(t, "am") then "I am " + TrimStart(t[2..])
      else if WordThenSpace(t, "as") then "As a " + TrimStart(t[2..])
      else if StartsWithCI(t, "when i") then "When I" + t[6..]
      else if StartsWithCI(t, "when") then "When" + t[4..]
      else "I " + t
    case None =>
      if StartsWithCI(c, "as a") then "As a" + c[4..]
      else if StartsWithCI(c, "when i") then "When I" + c[6..]
      else CapitalizeFirst(c)
  }

  /** After the first fixup, the `^i\s+` match of "I " + t is t again. */
  lemma AfterIOfFixed(t: string)
    requires |t| == 0 || !IsSpace(t[0])
    ensures AfterI("I " + t) == Some(t)
  {
    assert ("I " + t)[1..] == " " + t;
  }

  lemma StartsWithCILiteral(p: string, rest: string, lit: string)
    requires |lit| <= |p|
    ensures StartsWithCI(p + rest, lit) == StartsWithCI(p, lit)
  {
    StartsWithCIPrefix(rest, p, lit);
  }

  /** The whole chain of fixups, before the final capitalisation. */
  function Fixups(c: string): string {
    FixWhenI(FixAsA(FixIWhen(FixIAs(FixIAm(FixI(c))))))
  }

  lemma ChainWithoutLeadingI(c: string)
    requires AfterI(c) == None
    ensures CapitalizeFirst(Fixups(c)) == ExpectedRewrite(c)
  {
    IdleWithoutLeadingI(c);
    if StartsWithCI(c, "as a") {
      AsATail(c);
    } else if StartsWithCI(c, "when i") {
      CapitalWhenIdle(c[6..]);
    }
  }

  /** The four `^i\s+` rewrites do nothing without a leading `i`. */
  lemma IdleWithoutLeadingI(c: string)
    requires AfterI(c) == None
    ensures FixIWhen(FixIAs(FixIAm(FixI(c)))) == c
  {
  }

  /** "As a..." survives the last rewrite and the capitalisation. */
  lemma AsATail(c: string)
    requires StartsWithCI(c, "as a")
    ensures FixWhenI(FixAsA(c)) == "As a" + c[4..]
    ensures CapitalizeFirst("As a" + c[4..]) == "As a" + c[4..]
  {
    var r := "As a" + c[4..];
    FirstCharDiffers(r, "when i");
    assert r == [r[0]] + r[1..];
  }

  /** A literal whose first character differs (ignoring case) from the
      string's first character is not a prefix of it. */
  lemma FirstCharDiffers(s: string, lit: string)
    requires |s| > 0 && |lit| > 0 && !EqCI(s[0], lit[0])
    ensures !StartsWithCI(s, lit)
  {
  }

  lemma StepFixI(c: string, t: string)
    requires AfterI(c) == Some(t)
    ensures FixI(c) == "I " + t
  {
  }

  /** What the second, third and fourth fixups do to "I " + t. */
  lemma StepsAfterFixI(t: string)
    requires |t| == 0 || !IsSpace(t[0])
    ensures FixIAm("I " + t) == if WordThenSpace(t, "am") then "I am " + TrimStart(t[2..]) else "I " + t
    ensures FixIAs("I " + t) == if WordThenSpace(t, "as") then "As a " + TrimStart(t[2..]) else "I " + t
    ensures FixIWhen("I " + t) == if StartsWithCI(t, "when") then "When" + t[4..] else "I " + t
  {
    AfterIOfFixed(t);
  }

  /** A text that starts with a capital I is left alone by the last three
      steps. */
  lemma IdleOnCapitalI(s: string)
    requires |s| > 0 && s[0] == 'I'
    ensures FixAsA(s) == s && FixWhenI(s) == s && CapitalizeFirst(s) == s
  {
    FirstCharDiffers(s, "as a");
    FirstCharDiffers(s, "when i");
    assert s == [s[0]] + s[1..];
  }

  /** "As a ..." is left alone by every step after the third. */
  lemma IdleOnAsA(u: string)
    ensures var s := "As a " + u;
      FixIWhen(s) == s && FixAsA(s) == s && FixWhenI(s) == s && CapitalizeFirst(s) == s
  {
    var s := "As a " + u;
    assert AfterI(s) == None by {
      assert s[0] == 'A';
    }
    assert s == "As a" + (" " + u);
    StartsWithCILiteral("As a", " " + u, "as a");
    FirstCharDiffers(s, "when i");
    assert s == [s[0]] + s[1..];
  }

  /** "When..." is not touched by `FixAsA` nor by the capitalisation. */
  lemma IdleOnWhen(x: string)
    ensures FixAsA("When" + x) == "When" + x
    ensures CapitalizeFirst("When" + x) == "When" + x
  {
    var s := "When" + x;
    FirstCharDiffers(s, "as a");
    assert s == [s[0]] + s[1..];
  }

  lemma AmHead(c: string, t: string)
    requires AfterI(c) == Some(t) && WordThenSpace(t, "am")
    ensures FixIAm(FixI(c)) == "I am " + TrimStart(t[2..])
    ensures ExpectedRewrite(c) == "I am " + TrimStart(t[2..])
  {
    StepFixI(c, t);
    StepsAfterFixI(t);
  }

  lemma AmTail(u: string)
    ensures FixIAs("I am " + u) == "I am " + u
    ensures FixIWhen("I am " + u) == "I am " + u
  {
    var v := "am " + u;
    assert "I am " + u == "I " + v;
    assert !WordThenSpace(v, "as") by {
      assert v[1] == 'm';
    }
    FirstCharDiffers(v, "when");
    StepsAfterFixI(v);
  }

  lemma ChainIAm(c: string, t: string)
    requires AfterI(c) == Some(t) && WordThenSpace(t, "am")
    ensures CapitalizeFirst(Fixups(c)) == ExpectedRewrite(c)
  {
    var u := TrimStart(t[2..]);
    AmHead(c, t);
    AmTail(u);
    IdleOnCapitalI("I am " + u);
  }

  lemma ChainIAs(c: string, t: string)
    requires AfterI(c) == Some(t) && !WordThenSpace(t, "am") && WordThenSpace(t, "as")
    ensures CapitalizeFirst(Fixups(c)) == ExpectedRewrite(c)
  {
    StepFixI(c, t);
    StepsAfterFixI(t);
    IdleOnAsA(TrimStart(t[2..]));
  }

  lemma ChainIWhen(c: string, t: string)
    requires AfterI(c) == Some(t) && !WordThenSpace(t, "am") && !WordThenSpace(t, "as")
    requires StartsWithCI(t, "when")
    ensures CapitalizeFirst(Fixups(c)) == ExpectedRewrite(c)
  {
    StepFixI(c, t);
    StepsAfterFixI(t);
    var s4 := "When" + t[4..];
    var a := FixIWhen(FixIAs(FixIAm(FixI(c))));
    assert a == s4;
    IdleOnWhen(t[4..]);
    if StartsWithCI(t, "when i") {
      WhenIStep(t);
    } else {
      assert !StartsWithCI(s4, "when i");
      assert ExpectedRewrite(c) == s4;
    }
  }

  lemma WhenIStep(t: string)
    requires StartsWithCI(t, "when i")
    ensures FixWhenI(FixAsA("When" + t[4..])) == "When I" + t[6..]
    ensures CapitalizeFirst("When I" + t[6..]) == "When I" + t[6..]
  {
    IdleOnWhen(t[4..]);
    WhenIMatches(t);
    CapitalWhenIdle(t[6..]);
  }

  lemma CapitalWhenIdle(x: string)
    ensures CapitalizeFirst("When I" + x) == "When I" + x
  {
    var s := "When I" + x;
    assert s == [s[0]] + s[1..];
  }

  lemma WhenIMatches(t: string)
    requires StartsWithCI(t, "when i")
    ensures FixWhenI("When" + t[4..]) == "When I" + t[6..]
  {
    var s4 := "When" + t[4..];
    forall k | 0 <= k < 6
      ensures EqCI(s4[k], "when i"[k])
    {
      if k >= 4 {
        assert s4[k] == t[k];
      }
    }
    assert s4[6..] == t[6..];
  }

  lemma ChainIOther(c: string, t: string)
    requires AfterI(c) == Some(t) && !WordThenSpace(t, "am") && !WordThenSpace(t, "as")
    requires !StartsWithCI(t, "when")
    ensures CapitalizeFirst(Fixups(c)) == ExpectedRewrite(c)
  {
    StepFixI(c, t);
    StepsAfterFixI(t);
    IdleOnCapitalI("I " + t);
    WhenIStartsWhen(t);
  }

  /** Without a `when` prefix there is no `when i` prefix either. */
  lemma WhenIStartsWhen(t: string)
    requires !StartsWithCI(t, "when")
    ensures !StartsWithCI(t, "when i")
  {
    assert forall k :: 0 <= k < 4 ==> "when"[k] == "when i"[k];
  }

  /** The ordered chain of rewrites agrees with the case table on every
      string. */
  lemma RewriteChainMatchesTable(c: string)
    ensures CapitalizeFirst(Fixups(c)) == ExpectedRewrite(c)
  {
    match AfterI(c)
    case None => ChainWithoutLeadingI(c);
    case Some(t) =>
      if WordThenSpace(t, "am") {
        ChainIAm(c, t);
      } else if WordThenSpace(t, "as") {
        ChainIAs(c, t);
      } else if StartsWithCI(t, "when") {
        ChainIWhen(c, t);
      } else {
        ChainIOther(c, t);
      }
  }

  /** `toFirstPerson` is the case table applied to the cleaned text. */
  lemma ToFirstPersonTable(text: Field)
    ensures ToFirstPerson(text) == ExpectedRewrite(CleanText(text))
  {
    RewriteChainMatchesTable(CleanText(text));
  }

  /** A cleaned text starting with `when i` (any case) becomes `When I...`. */
  lemma WhenIBecomesCapitalised(text: Field)
    requires StartsWithCI(CleanText(text), "when i")
    ensures ToFirstPerson(text) == "When I" + CleanText(text)[6..]
  {
    ToFirstPersonTable(text);
    ExpectedWhenI(CleanText(text));
  }

  lemma ExpectedWhenI(c: string)
    requires StartsWithCI(c, "when i")
    ensures ExpectedRewrite(c) == "When I" + c[6..]
  {
    assert EqCI(c[0], 'w');
    NoLeadingI(c);
    FirstCharDiffers(c, "as a");
  }

  /** A text whose first letter is not an `i` has no `^i\s+` match. */
  lemma NoLeadingI(c: string)
    requires |c| > 0 && !EqCI(c[0], 'i')
    ensures AfterI(c) == None
  {
  }

  /** A cleaned text `i <spaces> when i...` (any case) also becomes `When I...`. */
  lemma IWhenIBecomesWhenI(text: Field, t: string)
    requires AfterI(CleanText(text)) == Some(t) && StartsWithCI(t, "when i")
    ensures ToFirstPerson(text) == "When I" + t[6..]
  {
    ToFirstPersonTable(text);
    ExpectedIWhenI(CleanText(text), t);
  }

  lemma ExpectedIWhenI(c: string, t: string)
    requires AfterI(c) == Some(t) && StartsWithCI(t, "when i")
    ensures ExpectedRewrite(c) == "When I" + t[6..]
  {
    assert EqCI(t[0], 'w');
    assert !WordThenSpace(t, "am") && !WordThenSpace(t, "as");
  }

  /** A cleaned text starting with `as a` (any case) becomes `As a...`. */
  lemma AsABecomesCapitalised(text: Field)
    requires StartsWithCI(CleanText(text), "as a")
    ensures ToFirstPerson(text) == "As a" + CleanText(text)[4..]
  {
    ToFirstPersonTable(text);
    ExpectedAsA(CleanText(text));
  }

  lemma ExpectedAsA(c: string)
    requires StartsWithCI(c, "as a")
    ensures ExpectedRewrite(c) == "As a" + c[4..]
  {
    assert EqCI(c[0], 'a');
    NoLeadingI(c);
  }

  /** When none of the prefix patterns applies, the only change the fixups
      make to the cleaned text is to uppercase its first character. */
  lemma UnmatchedOnlyCapitalises(text: Field)
    requires AfterI(CleanText(text)) == None
    requires !StartsWithCI(CleanText(text), "as a") && !StartsWithCI(CleanText(text), "when i")
    ensures ToFirstPerson(text) == CapitalizeFirst(CleanText(text))
  {
    ToFirstPersonTable(text);
  }

  /** A text that opens with "I am " and a visible character, or with "I " and
      a visible word that is not one of the rewritten words, is left as it is
      by the chain. */
  lemma PlainFirstPersonUnchanged(c: string)
    requires |c| > 2 && c[..2] == "I " && !IsSpace(c[2])
    requires !WordThenSpace(c[2..], "as") && !StartsWithCI(c[2..], "when")
    requires WordThenSpace(c[2..], "am") ==> |c| > 5 && c[..5] == "I am " && !IsSpace(c[5])
    ensures ExpectedRewrite(c) == c
  {
    PlainAfterI(c);
    if WordThenSpace(c[2..], "am") {
      PlainAm(c);
    } else {
      assert c == "I " + c[2..];
    }
  }

  lemma PlainAfterI(c: string)
    requires |c| > 2 && c[..2] == "I " && !IsSpace(c[2])
    ensures AfterI(c) == Some(c[2..])
  {
    assert c[1..] == " " + c[2..];
  }

  lemma PlainAm(c: string)
    requires |c| > 5 && c[..5] == "I am " && !IsSpace(c[5])
    ensures "I am " + TrimStart(c[2..][2..]) == c
  {
    assert c[2..][2..] == " " + c[5..];
    assert c == "I am " + c[5..];
  }
}
