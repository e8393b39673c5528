/** Properties of the whole normaliser run (src/rag/normalize.js): how every
    emitted chunk gets its id and its `shouldEmbed` flag, what that means for
    id uniqueness, the project-description prefix rule, and two worked
    examples. */
module NormalizeProps {
  import opened Wrappers
  import opened Chars
  import opened Slug
  import opened Clean
  import opened FirstPerson
  import opened Profiles
  import opened Chunks
  import opened Normalize

  /* ---------- Ids and embedding flags ---------- */

  /** A spec shaped as the section of its own type promises. */
  predicate SelfShaped(s: ChunkSpec) {
    SpecOfSection(s, s.chunkType)
  }

  predicate AllSelfShaped(specs: seq<ChunkSpec>) {
    forall i :: 0 <= i < |specs| ==> SelfShaped(specs[i])
  }

  lemma SectionSelfShaped(specs: seq<ChunkSpec>, u: ChunkType)
    requires AllOfSection(specs, u)
    ensures AllSelfShaped(specs)
  {
    forall i | 0 <= i < |specs|
      ensures SelfShaped(specs[i])
    {
      assert SpecOfSection(specs[i], u);
    }
  }

  lemma AllSelfShapedAppend(a: seq<ChunkSpec>, b: seq<ChunkSpec>)
    requires AllSelfShaped(a) && AllSelfShaped(b)
    ensures AllSelfShaped(a + b)
  {
    forall i | 0 <= i < |a + b|
      ensures SelfShaped((a + b)[i])
    {
      if i < |a| {
        assert (a + b)[i] == a[i];
      } else {
        assert (a + b)[i] == b[i - |a|];
      }
    }
  }

  lemma {:induction false} SectionsFromShaped(section: ChunkType -> seq<ChunkSpec>, k: nat)
    requires forall u :: AllOfSection(section(u), u)
    ensures AllSelfShaped(SectionsFrom(section, k))
    decreases SectionCount - k
  {
    if k < SectionCount {
      SectionsFromShaped(section, k + 1);
      ShapedStep(section, k);
    }
  }

  lemma ShapedStep(section: ChunkType -> seq<ChunkSpec>, k: nat)
    requires k < SectionCount
    requires forall u :: AllOfSection(section(u), u)
    requires AllSelfShaped(SectionsFrom(section, k + 1))
    ensures AllSelfShaped(SectionsFrom(section, k))
  {
    var u := TypeAt(k);
    assert AllOfSection(section(u), u);
    SectionSelfShaped(section(u), u);
    AllSelfShapedAppend(section(u), SectionsFrom(section, k + 1));
  }

  /** What every chunk of a run satisfies: its id is derived from its type
      and title, and it is embeddable exactly when its type is not one of the
      administrative ones. */
  predicate Derived(c: Chunk) {
    && c.id == MkId(TypeName(c.chunkType), c.title)
    && (c.shouldEmbed <==> !IsAdministrative(c.chunkType))
  }

  lemma BuildSelfShaped(s: ChunkSpec)
    requires SelfShaped(s)
    ensures Derived(BuildChunk(s))
  {
    BuildChunkHeader(s);
  }

  lemma BuildAllDerived(specs: seq<ChunkSpec>)
    requires AllSelfShaped(specs)
    ensures forall i :: 0 <= i < |BuildAll(specs)| ==> Derived(BuildAll(specs)[i])
  {
    forall i | 0 <= i < |specs|
      ensures Derived(BuildAll(specs)[i])
    {
      MapSeqAt(BuildChunk, specs, i);
      BuildSelfShaped(specs[i]);
    }
  }

  /** No section passes an explicit id, so every chunk's id is
      `<chunkType>-<slug(title || "item")>`; and the meta, audit and social
      chunks, and only they, are kept out of the index. */
  lemma NormalizeChunksDerived(pr: Profile)
    ensures forall i :: 0 <= i < |NormalizePortfolio(pr)| ==> Derived(NormalizePortfolio(pr)[i])
  {
    AllSectionsShaped(pr);
    SectionsFromShaped(Sections(pr), 0);
    PushAllAppends([], Specs(pr));
    assert [] + BuildAll(Specs(pr)) == BuildAll(Specs(pr));
    BuildAllDerived(Specs(pr));
  }

  /** Ids are a function of type and title alone, so nothing keeps them
      unique: two chunks of one type with one title share an id. */
  lemma SameTitleSameId(pr: Profile, i: nat, j: nat)
    requires i < |NormalizePortfolio(pr)| && j < |NormalizePortfolio(pr)|
    requires NormalizePortfolio(pr)[i].chunkType == NormalizePortfolio(pr)[j].chunkType
    requires NormalizePortfolio(pr)[i].title == NormalizePortfolio(pr)[j].title
    ensures NormalizePortfolio(pr)[i].id == NormalizePortfolio(pr)[j].id
  {
    NormalizeChunksDerived(pr);
  }

  /** The `n`-th chunk built from a section that maps `f` over `xs`. */
  lemma BuiltAt<X>(f: X -> ChunkSpec, xs: seq<X>, n: nat)
    requires n < |xs|
    ensures |BuildAll(MapSeq(f, xs))| == |xs|
    ensures BuildAll(MapSeq(f, xs))[n] == BuildChunk(f(xs[n]))
  {
    MapSeqAt(f, xs, n);
    MapSeqAt(BuildChunk, MapSeq(f, xs), n);
  }

  lemma BuiltInterestsCollide(xs: seq<Interest>, i: nat, j: nat)
    requires i < j < |xs| && xs[i].name == xs[j].name
    ensures var cs := BuildAll(MapSeq(InterestSpec, xs));
      j < |cs| && cs[i].id == cs[j].id
  {
    BuiltAt(InterestSpec, xs, i);
    BuiltAt(InterestSpec, xs, j);
    BuildChunkHeader(InterestSpec(xs[i]));
    BuildChunkHeader(InterestSpec(xs[j]));
  }

  /** Two interests with the same name yield two different interest chunks
      with the same id. */
  lemma InterestIdsCollide(pr: Profile, i: nat, j: nat)
    requires i < j < |pr.interests| && pr.interests[i].name == pr.interests[j].name
    ensures var cs := OfType(NormalizePortfolio(pr), InterestChunk);
      i < j < |cs| && cs[i].id == cs[j].id
  {
    InterestChunks(pr);
    BuiltInterestsCollide(pr.interests, i, j);
  }

  lemma InterestChunks(pr: Profile)
    ensures OfType(NormalizePortfolio(pr), InterestChunk) == BuildAll(MapSeq(InterestSpec, pr.interests))
  {
    SectionIs(pr, InterestChunk, InterestSection(pr));
    NormalizeByType(pr, InterestChunk);
  }

  lemma SectionIs(pr: Profile, t: ChunkType, sec: seq<ChunkSpec>)
    requires sec == SectionSpecs(pr, t)
    ensures OfType(NormalizePortfolio(pr), t) == BuildAll(sec)
  {
    NormalizeByType(pr, t);
  }

  /* ---------- Project descriptions ---------- */

  /** `desc` matches `^<name>\s+is\s+` (any case): the whitespace run after
      the name ends at `i`, where "is" starts, and the match ends at `j`. */
  predicate PrefixMatch(desc: string, name: string, i: nat, j: nat) {
    && StartsWithCI(desc, name)
    && |name| < i && i + 2 < j <= |desc|
    && SpaceRun(desc, |name|, i)
    && EqCI(desc[i], 'i') && EqCI(desc[i + 1], 's')
    && SpaceRun(desc, i + 2, j)
    && (j == |desc| || !IsSpace(desc[j]))
  }

  /** A whitespace run that ends at a visible character (or the end) is the
      one a greedy `\s*` consumes. */
  lemma {:induction false} SpaceEndAt(s: string, k: nat, e: nat)
    requires k <= e <= |s| && SpaceRun(s, k, e) && (e == |s| || !IsSpace(s[e]))
    ensures SpaceEnd(s, k) == e
    decreases e - k
  {
    if k < e {
      SpaceEndAt(s, k + 1, e);
    }
  }

  /** When the description opens with the project name, a whitespace run,
      "is" (any case) and another whitespace run, all of that is dropped. */
  lemma StripNamePrefixMatch(desc: string, name: string, i: nat, j: nat)
    requires PrefixMatch(desc, name, i, j)
    ensures StripNamePrefix(desc, name) == desc[j..] != desc
  {
    MatchEndAt(desc, name, i, j);
  }

  lemma MatchEndAt(desc: string, name: string, i: nat, j: nat)
    requires PrefixMatch(desc, name, i, j)
    ensures MatchEnd(desc, name) == j
  {
    SpaceEndAt(desc, |name|, i);
    SpaceEndAt(desc, i + 2, j);
  }

  /** Conversely, a description the rule changes matches the pattern, and
      the result is exactly what follows the match. */
  lemma StripNamePrefixOnlyOnMatch(desc: string, name: string)
    requires StripNamePrefix(desc, name) != desc
    ensures PrefixMatch(desc, name, SpaceEnd(desc, |name|), MatchEnd(desc, name))
    ensures StripNamePrefix(desc, name) == desc[MatchEnd(desc, name)..]
  {
    assert MatchEnd(desc, name) != 0;
    MatchEndOnMatch(desc, name);
  }

  lemma MatchEndOnMatch(desc: string, name: string)
    requires MatchEnd(desc, name) != 0
    ensures PrefixMatch(desc, name, SpaceEnd(desc, |name|), MatchEnd(desc, name))
  {
  }

  /* ---------- Worked examples ---------- */

  /** A text of the shape `<p0><v0><p1><v1>.<rest>`, split after the full
      stop that opens the third literal part. */
  lemma TemplateSentence(parts: seq<string>, values: seq<string>)
    requires |parts| == |values| + 1 && |values| >= 3
    requires |parts[2]| > 0 && parts[2][0] == '.'
    ensures Template(parts, values)
      == (parts[0] + values[0] + parts[1] + values[1] + ".")
        + (parts[2][1..] + values[2] + Template(parts[3..], values[3..]))
  {
    var rest := Template(parts[3..], values[3..]);
    var t2 := Template(parts[2..], values[2..]);
    assert t2 == parts[2] + values[2] + rest by {
      assert parts[2..][1..] == parts[3..];
      assert values[2..][1..] == values[3..];
    }
    var t1 := Template(parts[1..], values[1..]);
    assert t1 == parts[1] + values[1] + t2 by {
      assert parts[1..][1..] == parts[2..];
      assert values[1..][1..] == values[2..];
    }
    assert parts[2] == "." + parts[2][1..];
    var a, b, c, d, e, f := parts[0], values[0], parts[1], values[1], parts[2][1..], values[2];
    assert a + b + (c + d + ("." + e + f + rest)) == (a + b + c + d + ".") + (e + f + rest);
  }

  /** No carriage return or line feed in `s`. */
  predicate NoLineBreak(s: string) {
    forall i :: 0 <= i < |s| ==> s[i] != '\r' && s[i] != '\n'
  }

  lemma NoLineBreakJoin(a: string, b: string)
    requires NoLineBreak(a) && NoLineBreak(b)
    ensures NoLineBreak(a + b)
  {
    forall i | 0 <= i < |a + b|
      ensures (a + b)[i] != '\r' && (a + b)[i] != '\n'
    {
      if i < |a| {
        assert (a + b)[i] == a[i];
      } else {
        assert (a + b)[i] == b[i - |a|];
      }
    }
  }

  /** The sentence `p` opens with "I " and a word that no rewrite touches:
      either "am " and a visible character, or a visible character that does
      not begin "as" or "when". */
  predicate PlainOpening(p: string) {
    && |p| > 5 && p[0] == 'I' && p[1] == ' ' && !IsSpace(p[|p| - 1])
    && ((p[2] == 'a' && p[3] == 'm' && p[4] == ' ' && !IsSpace(p[5]))
        || (!IsSpace(p[2]) && !EqCI(p[2], 'a') && !EqCI(p[2], 'w')))
  }

  /** A text that opens with a plain sentence meets the conditions under
      which the rewrite table leaves it alone. */
  lemma PlainHead(p: string, c: string)
    requires PlainOpening(p) && |c| >= |p| && c[..|p|] == p
    ensures |c| > 2 && c[..2] == "I " && !IsSpace(c[2])
    ensures !WordThenSpace(c[2..], "as") && !StartsWithCI(c[2..], "when")
    ensures WordThenSpace(c[2..], "am") ==> |c| > 5 && c[..5] == "I am " && !IsSpace(c[5])
  {
    assert c[0] == p[0] && c[1] == p[1] && c[2] == p[2] && c[3] == p[3] && c[4] == p[4] && c[5] == p[5];
    assert c[2..][0] == c[2] && c[2..][1] == c[3];
    if p[2] == 'a' {
      assert c[..5] == "I am ";
    } else {
      assert !EqCI(c[2..][0], "am"[0]);
    }
  }

  /** A chunk text that opens with a plain first-person sentence keeps it:
      cleaning leaves the sentence in front, and none of the rewrites
      applies. */
  lemma FirstPersonKeepsSentence(p: string, q: string)
    requires PlainOpening(p) && NoLineBreak(p)
    ensures |ToFirstPerson(Some(p + q))| >= |p| && ToFirstPerson(Some(p + q))[..|p|] == p
  {
    CleanTextKeepsSentence(p, q);
    var c := CleanText(Some(p + q));
    PlainHead(p, c);
    PlainFirstPersonUnchanged(c);
    ToFirstPersonTable(Some(p + q));
  }

  /* Identity chunk. */

  /** "I am <name>, a <title>.", the sentence the identity text opens with. */
  function IdentityOpening(name: string, title: string): string {
    "I am " + name + ", a " + title + "."
  }

  lemma {:induction false} IdentityOpeningPlain(name: string, title: string)
    requires |name| > 0 && !IsSpace(name[0]) && NoLineBreak(name) && NoLineBreak(title)
    ensures PlainOpening(IdentityOpening(name, title)) && NoLineBreak(IdentityOpening(name, title))
  {
    var s := IdentityOpening(name, title);
    assert s[..5] == "I am " && s[5] == name[0] && s[|s| - 1] == '.';
    assert NoLineBreak("I am ") && NoLineBreak(", a ") && NoLineBreak(".");
    NoLineBreakJoin("I am ", name);
    NoLineBreakJoin("I am " + name, ", a ");
    NoLineBreakJoin("I am " + name + ", a ", title);
    NoLineBreakJoin("I am " + name + ", a " + title, ".");
  }

  lemma IdentityTemplateShape()
    ensures |IdentityTemplate| == 5 && |IdentityTemplate[2]| > 0 && IdentityTemplate[2][0] == '.'
    ensures IdentityTemplate[0] == "I am " && IdentityTemplate[1] == ", a "
  {
    var third := ". I am a B.Tech Computer Science student at ";
    assert IdentityTemplate[2] == third;
    assert third[0] == '.';
  }

  /** The identity text opens with "I am <name>, a <title>.": the template
      puts the sentence first and neither cleaning nor the first-person
      rewrites touch it. */
  lemma {:induction false} IdentityText(name: string, p: PersonalInfo)
    requires |name| > 0 && !IsSpace(name[0]) && NoLineBreak(name)
    requires p.title.Some? && NoLineBreak(p.title.value)
    ensures var t := BuildChunk(IdentitySpec(name, p)).text;
      var o := IdentityOpening(name, p.title.value);
      |t| >= |o| && t[..|o|] == o
  {
    var values := [name, p.title.value, Show(p.university), Show(OrElse(p.currentLocation, p.location))];
    assert IdentitySpec(name, p).text == Some(Template(IdentityTemplate, values));
    IdentityTemplateShape();
    TemplateSentence(IdentityTemplate, values);
    IdentityOpeningPlain(name, p.title.value);
    FirstPersonKeepsSentence(IdentityOpening(name, p.title.value),
      IdentityTemplate[2][1..] + values[2] + Template(IdentityTemplate[3..], values[3..]));
  }

  lemma LowerOverview()
    ensures Lower("Overview") == "overview"
  {
  }

  lemma OverviewWord()
    ensures Lower("Overview") == "overview" && AllSlugAlnum(Lower("Overview"))
  {
    LowerOverview();
    assert AllSlugAlnum("overview");
  }

  lemma DashWord()
    ensures |" \U{2014} "| > 0 && NoSlugAlnum(Lower(" \U{2014} "))
  {
    assert Lower(" \U{2014} ") == " \U{2014} ";
  }

  lemma {:induction false} OverviewTitle(name: string)
    ensures name + " \U{2014} Overview" == name + " \U{2014} " + "Overview"
  {
    assert " \U{2014} Overview" == " \U{2014} " + "Overview";
  }

  lemma {:induction false} OverviewTitleSlug(name: string, slug: string)
    requires Slugify(name + " \U{2014} " + "Overview") == slug
    ensures Slugify(name + " \U{2014} Overview") == slug
  {
    OverviewTitle(name);
  }

  lemma {:induction false} OverviewCut(name: string)
    requires |name| + 9 <= MaxSlugLength && Lower("Overview") == "overview"
    ensures Cut(Lower(name) + "-" + Lower("Overview")) == Lower(name) + "-" + "overview"
  {
  }

  lemma {:induction false} DashOverview(x: string)
    ensures x + "-" + "overview" == x + "-overview"
  {
    assert "-" + "overview" == "-overview";
  }

  /** The slug of "<name> \U{2014} Overview" for a one-word name. */
  lemma {:induction false} OverviewSlug(name: string)
    requires |name| > 0 && AllSlugAlnum(Lower(name)) && |name| + 9 <= MaxSlugLength
    ensures Slugify(name + " \U{2014} Overview") == Lower(name) + "-overview"
  {
    OverviewWord();
    DashWord();
    SlugifyTwoWords(name, " \U{2014} ", "Overview");
    OverviewCut(name);
    DashOverview(Lower(name));
    OverviewTitleSlug(name, Lower(name) + "-overview");
  }

  lemma {:induction false} IdentityIdOfTitle(name: string, p: PersonalInfo)
    ensures BuildChunk(IdentitySpec(name, p)).id == MkId("identity", Some(name + " \U{2014} Overview"))
  {
    BuildChunkHeader(IdentitySpec(name, p));
  }

  /** A one-word name gives the identity chunk the id
      "identity-<lower-case name>-overview". */
  lemma {:induction false} IdentityId(name: string)
    requires |name| > 0 && AllSlugAlnum(Lower(name)) && |name| + 9 <= MaxSlugLength
    ensures MkId("identity", Some(name + " \U{2014} Overview")) == "identity-" + Lower(name) + "-overview"
  {
    OverviewSlug(name);
    IdentityGlue(Lower(name));
  }

  lemma {:induction false} IdentityGlue(x: string)
    ensures "identity" + "-" + (x + "-overview") == "identity-" + x + "-overview"
  {
  }

  lemma BuildOne(s: ChunkSpec)
    ensures BuildAll([s]) == [BuildChunk(s)]
  {
    MapSeqAt(BuildChunk, [s], 0);
  }

  /** Exactly one identity chunk, built from the display name. */
  lemma IdentityChunks(pr: Profile)
    ensures OfType(NormalizePortfolio(pr), IdentityChunk) == [BuildChunk(IdentitySpec(DisplayName(pr), pr.personalInfo))]
  {
    SectionIs(pr, IdentityChunk, [IdentitySpec(DisplayName(pr), pr.personalInfo)]);
    BuildOne(IdentitySpec(DisplayName(pr), pr.personalInfo));
  }

  /** The identity example: a profile named "Asha" with the title "Backend
      Engineer" yields exactly one identity chunk, titled "Asha \U{2014}
      Overview", with id "identity-asha-overview", whose text opens with
      "I am Asha, a Backend Engineer." Stated for every one-word name. */
  lemma {:induction false} IdentityExample(pr: Profile, name: string)
    requires pr.personalInfo.name == Some(name)
    requires |name| > 0 && !IsSpace(name[0]) && NoLineBreak(name)
    requires AllSlugAlnum(Lower(name)) && |name| + 9 <= MaxSlugLength
    requires pr.personalInfo.title.Some? && NoLineBreak(pr.personalInfo.title.value)
    ensures var cs := OfType(NormalizePortfolio(pr), IdentityChunk);
      var o := IdentityOpening(name, pr.personalInfo.title.value);
      && |cs| == 1
      && cs[0].title == Some(name + " \U{2014} Overview")
      && cs[0].id == "identity-" + Lower(name) + "-overview"
      && |cs[0].text| >= |o| && cs[0].text[..|o|] == o
  {
    IdentityChunks(pr);
    assert DisplayName(pr) == name;
    IdentityIdOfTitle(name, pr.personalInfo);
    IdentityId(name);
    IdentityText(name, pr.personalInfo);
  }

  /* Project chunk. */

  /** A description "<name> is <rest>" loses its "<name> is " when `rest`
      starts with a visible character. */
  lemma {:induction false} StripNameIs(name: string, rest: string)
    requires |rest| > 0 && !IsSpace(rest[0])
    ensures StripNamePrefix(name + " is " + rest, name) == rest
  {
    var desc := name + " is " + rest;
    var n := |name|;
    assert desc == name + (" is " + rest);
    StartsWithCIPrefix(" is " + rest, name, name);
    assert desc[n] == ' ' && desc[n + 1] == 'i' && desc[n + 2] == 's' && desc[n + 3] == ' ' && desc[n + 4] == rest[0];
    assert PrefixMatch(desc, name, n + 1, n + 4);
    StripNamePrefixMatch(desc, name, n + 1, n + 4);
    assert desc[n + 4..] == rest;
  }

  /** "I built <name>, <rest>.", the sentence the project text opens with. */
  function ProjectOpening(name: string, rest: string): string {
    "I built " + name + ", " + rest + "."
  }

  lemma {:induction false} ProjectOpeningPlain(name: string, rest: string)
    requires NoLineBreak(name) && NoLineBreak(rest)
    ensures PlainOpening(ProjectOpening(name, rest)) && NoLineBreak(ProjectOpening(name, rest))
  {
    var s := ProjectOpening(name, rest);
    assert s[..8] == "I built " && s[|s| - 1] == '.';
    assert NoLineBreak("I built ") && NoLineBreak(", ") && NoLineBreak(".");
    NoLineBreakJoin("I built ", name);
    NoLineBreakJoin("I built " + name, ", ");
    NoLineBreakJoin("I built " + name + ", ", rest);
    NoLineBreakJoin("I built " + name + ", " + rest, ".");
  }

  /** A project described as "<name> is <rest>" gets a text that opens with
      "I built <name>, <rest>." */
  lemma {:induction false} ProjectText(prj: Project, name: string, rest: string)
    requires prj.name == Some(name) && prj.description == name + " is " + rest
    requires |rest| > 0 && !IsSpace(rest[0]) && NoLineBreak(name) && NoLineBreak(rest)
    ensures var t := BuildChunk(ProjectSpec(prj)).text;
      var o := ProjectOpening(name, rest);
      |t| >= |o| && t[..|o|] == o
  {
    StripNameIs(name, rest);
    var values := [name, rest, Join(prj.techStack, ", "), Join(prj.features, ", ")];
    assert ProjectSpec(prj).text == Some(Template(ProjectTemplate, values));
    assert |ProjectTemplate| == 5 && ProjectTemplate[2][0] == '.';
    assert ProjectTemplate[0] == "I built " && ProjectTemplate[1] == ", ";
    TemplateSentence(ProjectTemplate, values);
    ProjectOpeningPlain(name, rest);
    FirstPersonKeepsSentence(ProjectOpening(name, rest),
      ProjectTemplate[2][1..] + values[2] + Template(ProjectTemplate[3..], values[3..]));
  }

  /** One project chunk per project, in order. */
  lemma ProjectChunks(pr: Profile)
    ensures OfType(NormalizePortfolio(pr), ProjectChunk) == BuildAll(MapSeq(ProjectSpec, pr.projects))
  {
    SectionIs(pr, ProjectChunk, ProjectSection(pr));
  }

  lemma {:induction false} BuiltProjectText(xs: seq<Project>, n: nat, name: string, rest: string)
    requires n < |xs| && xs[n].name == Some(name) && xs[n].description == name + " is " + rest
    requires |rest| > 0 && !IsSpace(rest[0]) && NoLineBreak(name) && NoLineBreak(rest)
    ensures var cs := BuildAll(MapSeq(ProjectSpec, xs));
      var o := ProjectOpening(name, rest);
      n < |cs| && |cs[n].text| >= |o| && cs[n].text[..|o|] == o
  {
    BuiltAt(ProjectSpec, xs, n);
    ProjectText(xs[n], name, rest);
  }

  /** The project example: a project `ChatApp` described as "ChatApp is a
      real-time messaging tool" yields a project chunk whose text opens with
      "I built ChatApp, a real-time messaging tool." Stated for every name
      and description of that shape. */
  lemma {:induction false} ProjectExample(pr: Profile, n: nat, name: string, rest: string)
    requires n < |pr.projects|
    requires pr.projects[n].name == Some(name) && pr.projects[n].description == name + " is " + rest
    requires |rest| > 0 && !IsSpace(rest[0]) && NoLineBreak(name) && NoLineBreak(rest)
    ensures var cs := OfType(NormalizePortfolio(pr), ProjectChunk);
      var o := ProjectOpening(name, rest);
      n < |cs| && |cs[n].text| >= |o| && cs[n].text[..|o|] == o
  {
    ProjectChunks(pr);
    BuiltProjectText(pr.projects, n, name, rest);
  }
}
