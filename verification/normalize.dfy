/** `normalizePortfolio` (src/rag/normalize.js): turns one profile document
    into the ordered list of chunks the indexer embeds. Each section of the
    profile contributes the chunk specs below; the chunks are the specs pushed
    through `pushChunk` in the source's section order. */
module Normalize {
  import opened Wrappers
  import opened Chars
  import opened Profiles
  import opened Chunks

  /** `profile.personalInfo?.name || "User"`. */
  function DisplayName(pr: Profile): string {
    OrStr(pr.personalInfo.name, "User")
  }

  /** `profile.meta?.owner`. */
  function Owner(pr: Profile): Field {
    if pr.meta.Some? then pr.meta.value.owner else None
  }

  /** `profile.careerPreferences?.availability`. */
  function Availability(pr: Profile): Field {
    if pr.careerPreferences.Some? then pr.careerPreferences.value.availability else None
  }

  /** `profile.careerPreferences?.workModePreferences`. */
  function WorkModes(pr: Profile): Option<seq<string>> {
    if pr.careerPreferences.Some? then pr.careerPreferences.value.workModePreferences else None
  }

  /* ---------- Templates ---------- */

  /** A JavaScript template literal: its literal parts with the interpolated
      values between them. */
  function Template(parts: seq<string>, values: seq<string>): string
    requires |parts| == |values| + 1
    decreases |values|
  {
    if |values| == 0 then parts[0]
    else parts[0] + values[0] + Template(parts[1..], values[1..])
  }

  /** The literal parts of each chunk-text template, in source order. */
  const MetaTemplate: seq<string> := ["This profile belongs to ", " and is currently at version ", "."]
  const AuditTemplate: seq<string> := ["This profile is owned by ", " and was last saved at ", "."]
  const IdentityTemplate: seq<string> :=
    ["I am ", ", a ", ". I am a B.Tech Computer Science student at ", " and currently based in ", "."]
  const ContactTemplate: seq<string> :=
    ["I can be contacted via email at ", " and phone at ", ". I am currently ", " and prefer ",
     " work modes. I operate in the ", " timezone."]
  const SocialText: string :=
    "I maintain active profiles across platforms such as GitHub, LinkedIn, LeetCode, CodeChef, Codeforces, GeeksForGeeks, Twitter, and Instagram."
  const CareerTemplate: seq<string> := ["I am seeking ", " roles such as ", " in domains including ", "."]
  const InterestTemplate: seq<string> := ["When I'm not coding, I enjoy ", "."]
  const EducationTemplate: seq<string> :=
    ["", " at ", ". Duration: ", ". Courses include ", ". Activities include ", "."]
  const AwardTemplate: seq<string> := ["I earned the ", " in ", ". ", ""]
  const LeetCodeTemplate: seq<string> :=
    ["I have a LeetCode rating of ", " with a maximum rating of ", ". I rank in the top ",
     " globally with a global rank of ", " and have solved ", " problems."]
  const CodeChefTemplate: seq<string> :=
    ["I am a ", " rated CodeChef programmer competing in ", ". My rating is ", " with a maximum of ", "."]
  const CodeforcesTemplate: seq<string> :=
    ["I have a Codeforces rating of ", " with a maximum of ", ". My rank is ", " and I have solved ", " problems."]
  const GeeksForGeeksTemplate: seq<string> :=
    ["I have solved ", " problems on GeeksForGeeks and hold a global rank of ", "."]
  const OverallTemplate: seq<string> :=
    ["I have over ", " years of coding experience, made more than ", " commits, and solved over ",
     " algorithmic problems."]
  const ExperienceTemplate: seq<string> := ["As a ", " at ", ", I ", ""]
  const ProjectTemplate: seq<string> := ["I built ", ", ", ". I used ", " to implement features such as ", "."]
  const SkillTemplate: seq<string> := ["I am proficient in ", "."]

  /* ---------- Sections ---------- */

  function MetaSection(pr: Profile): seq<ChunkSpec> {
    if pr.meta.None? then []
    else
      var name := DisplayName(pr);
      [ChunkSpec(None, MetaChunk, "meta",
        Some("Profile metadata for " + name),
        Some([Some("meta")]),
        Some(Template(MetaTemplate, [OrStr(pr.meta.value.owner, name), Show(pr.meta.value.version)])),
        None, Some(false))]
  }

  /** The audit chunk exists when the document carries a save time or an owner. */
  predicate HasAudit(pr: Profile) {
    Truthy(pr.savedAt) || Truthy(Owner(pr))
  }

  function AuditSection(pr: Profile): seq<ChunkSpec> {
    if !HasAudit(pr) then []
    else
      var name := DisplayName(pr);
      [ChunkSpec(None, AuditChunk, "meta",
        Some(name + " \U{2014} Profile Audit"),
        Some([Some("meta"), Some("audit")]),
        Some(Template(AuditTemplate, [OrStr(Owner(pr), name), Show(pr.savedAt)])),
        Some(map["owner" := FieldValue(Owner(pr)), "savedAt" := FieldValue(pr.savedAt)]),
        Some(false))]
  }

  function IdentitySpec(name: string, p: PersonalInfo): ChunkSpec {
    ChunkSpec(None, IdentityChunk, "personalInfo",
      Some(name + " \U{2014} Overview"),
      Some([Some("identity")]),
      Some(Template(IdentityTemplate,
        [name, Show(p.title), Show(p.university), Show(OrElse(p.currentLocation, p.location))])),
      None, None)
  }

  function IdentitySection(pr: Profile): seq<ChunkSpec> {
    [IdentitySpec(DisplayName(pr), pr.personalInfo)]
  }

  function ContactSection(pr: Profile): seq<ChunkSpec> {
    var name := DisplayName(pr);
    var p := pr.personalInfo;
    [ChunkSpec(None, ContactChunk, "personalInfo",
      Some(name + " \U{2014} Contact & Availability"),
      Some([Some("contact"), Some("availability")]),
      Some(Template(ContactTemplate,
        [Show(p.email), Show(p.phone), Show(Availability(pr)), ShowJoin(WorkModes(pr), ", "), Show(p.timezone)])),
      Some(map[
        "email" := FieldValue(p.email),
        "phone" := FieldValue(p.phone),
        "availability" := FieldValue(Availability(pr)),
        "workModes" := ListValue(WorkModes(pr)),
        "timezone" := FieldValue(p.timezone),
        "location" := FieldValue(p.location),
        "currentLocation" := FieldValue(p.currentLocation)]),
      None)]
  }

  function SocialSection(pr: Profile): seq<ChunkSpec> {
    if pr.socialLinks.None? then []
    else
      [ChunkSpec(None, SocialChunk, "socialLinks",
        Some(DisplayName(pr) + " \U{2014} Social & Coding Profiles"),
        Some([Some("social")]),
        Some(SocialText),
        Some(ObjectValue(pr.socialLinks.value)),
        Some(false))]
  }

  function BioSpec(name: string, entry: (string, Field)): ChunkSpec {
    ChunkSpec(None, BioChunk, "personalInfo",
      Some(name + " \U{2014} Bio (" + entry.0 + ")"),
      Some([Some("bio"), Some(entry.0)]),
      entry.1,
      None, None)
  }

  function BioSection(pr: Profile): seq<ChunkSpec> {
    var name := DisplayName(pr);
    MapSeq((e: (string, Field)) => BioSpec(name, e), pr.personalInfo.bio)
  }

  function CareerSection(pr: Profile): seq<ChunkSpec> {
    if pr.careerPreferences.None? then []
    else
      var cp := pr.careerPreferences.value;
      [ChunkSpec(None, CareerChunk, "careerPreferences",
        Some(DisplayName(pr) + " \U{2014} Career Preferences"),
        Some([Some("career")]),
        Some(Template(CareerTemplate,
          [ShowJoin(cp.jobTypes, " and "), ShowJoin(cp.targetRoles, ", "), ShowJoin(cp.preferredDomains, ", ")])),
        None, None)]
  }

  function InterestSpec(it: Interest): ChunkSpec {
    ChunkSpec(None, InterestChunk, "interests",
      it.name,
      Some([Some("interest")]),
      Some(Template(InterestTemplate, [Show(it.description)])),
      None, None)
  }

  function InterestSection(pr: Profile): seq<ChunkSpec> {
    MapSeq(InterestSpec, pr.interests)
  }

  /** `activities?.length ? activities.join(", ") : "academic coursework"`. */
  function Activities(a: Option<seq<string>>): string {
    if a.Some? && |a.value| > 0 then Join(a.value, ", ") else "academic coursework"
  }

  function EducationSpec(e: Education): ChunkSpec {
    ChunkSpec(None, EducationChunk, "education",
      Some(Show(e.degree) + " \U{2014} " + Show(e.institution)),
      Some([Some("education")]),
      Some(Template(EducationTemplate,
        [Show(e.degree), Show(e.institution), Show(e.duration), ShowJoin(e.courses, ", "), Activities(e.activities)])),
      Some(map[
        "location" := FieldValue(e.location),
        "status" := FieldValue(e.status),
        "cgpa" := FieldValue(OrElse(e.cgpa, e.percentage))]),
      None)
  }

  function EducationSection(pr: Profile): seq<ChunkSpec> {
    MapSeq(EducationSpec, pr.education)
  }

  function AwardSpec(a: Award): ChunkSpec {
    ChunkSpec(None, AchievementChunk, "achievements",
      a.title,
      Some([Some("achievement")]),
      Some(Template(AwardTemplate, [Show(a.title), Show(a.year), Show(a.description)])),
      None, None)
  }

  function AwardSection(pr: Profile): seq<ChunkSpec> {
    MapSeq(AwardSpec, pr.achievements.awards)
  }

  /** A per-platform statistics chunk; the four platforms share this shape. */
  function StatSpec(title: string, platform: string, text: string): ChunkSpec {
    ChunkSpec(None, StatChunk, "achievements", Some(title),
      Some([Some(platform), Some("competitive-programming")]), Some(text), None, None)
  }

  function LeetCodeSection(pr: Profile): seq<ChunkSpec> {
    var o := pr.achievements.competitiveProgramming.leetcode;
    if o.None? then []
    else
      var l := o.value;
      [StatSpec("LeetCode Performance", "leetcode",
        Template(LeetCodeTemplate,
          [Show(l.rating), Show(l.maxRating), Show(l.percentile), Show(l.globalRanking), Show(l.problemsSolved)]))]
  }

  function CodeChefSection(pr: Profile): seq<ChunkSpec> {
    var o := pr.achievements.competitiveProgramming.codechef;
    if o.None? then []
    else
      var c := o.value;
      [StatSpec("CodeChef Performance", "codechef",
        Template(CodeChefTemplate, [Show(c.stars), Show(c.division), Show(c.rating), Show(c.maxRating)]))]
  }

  function CodeforcesSection(pr: Profile): seq<ChunkSpec> {
    var o := pr.achievements.competitiveProgramming.codeforces;
    if o.None? then []
    else
      var c := o.value;
      [StatSpec("Codeforces Performance", "codeforces",
        Template(CodeforcesTemplate, [Show(c.rating), Show(c.maxRating), Show(c.rank), Show(c.problemsSolved)]))]
  }

  function GeeksForGeeksSection(pr: Profile): seq<ChunkSpec> {
    var o := pr.achievements.competitiveProgramming.geeksforgeeks;
    if o.None? then []
    else
      var g := o.value;
      [StatSpec("GeeksForGeeks Performance", "geeksforgeeks",
        Template(GeeksForGeeksTemplate, [Show(g.problemsSolved), Show(g.rank)]))]
  }

  function OverallSection(pr: Profile): seq<ChunkSpec> {
    var o := pr.achievements.overallStats;
    if o.None? then []
    else
      var s := o.value;
      [ChunkSpec(None, StatChunk, "achievements",
        Some("Overall Coding Statistics"),
        Some([Some("stats")]),
        Some(Template(OverallTemplate, [Show(s.yearsExperience), Show(s.commits), Show(s.totalProblemsSolved)])),
        None, None)]
  }

  /** The five statistics sections, in the order the source emits them. */
  function StatSection(pr: Profile): seq<ChunkSpec> {
    LeetCodeSection(pr) + CodeChefSection(pr) + CodeforcesSection(pr) + GeeksForGeeksSection(pr) + OverallSection(pr)
  }

  function ExperienceSpec(x: Experience): ChunkSpec {
    ChunkSpec(None, ExperienceChunk, "experience",
      Some(Show(x.role) + " at " + Show(x.organization)),
      Some([Some("experience")]),
      Some(Template(ExperienceTemplate, [Show(x.role), Show(x.organization), Show(x.description)])),
      Some(map["skills" := ListValue(x.skills), "location" := FieldValue(x.location)]),
      None)
  }

  function ExperienceSection(pr: Profile): seq<ChunkSpec> {
    MapSeq(ExperienceSpec, pr.experience)
  }

  /** `s[lo..hi]` is all whitespace. */
  predicate SpaceRun(s: string, lo: nat, hi: nat)
    requires lo <= hi <= |s|
  {
    forall k :: lo <= k < hi ==> IsSpace(s[k])
  }

  /** Where a greedy `\s*` that starts at `k` stops: the first visible
      character at or after `k`, or the end. */
  function SpaceEnd(s: string, k: nat): (e: nat)
    requires k <= |s|
    ensures k <= e <= |s| && SpaceRun(s, k, e)
    ensures e == |s| || !IsSpace(s[e])
    decreases |s| - k
  {
    if k < |s| && IsSpace(s[k]) then SpaceEnd(s, k + 1) else k
  }

  /** Where the match of `^<name>\s+is\s+` (any case) ends in `desc`, or 0
      when there is no match. Both `\s+` are greedy and "is" cannot start
      with whitespace, so a match, when there is one, ends where the second
      whitespace run ends. */
  function MatchEnd(desc: string, name: string): (j: nat)
    ensures j <= |desc|
    ensures j != 0 ==> StartsWithCI(desc, name) && |name| + 4 <= j
  {
    if !StartsWithCI(desc, name) || |name| == |desc| || !IsSpace(desc[|name|]) then 0
    else
      var i := SpaceEnd(desc, |name|);
      if i + 2 < |desc| && EqCI(desc[i], 'i') && EqCI(desc[i + 1], 's') && IsSpace(desc[i + 2])
      then SpaceEnd(desc, i + 2)
      else 0
  }

  /** `description.replace(new RegExp("^" + name + "\\s+is\\s+", "i"), "")`:
      drops a leading "<name> is " (any case, any run of whitespace on both
      sides of "is"); any other description is left alone. */
  function StripNamePrefix(desc: string, name: string): (r: string)
    ensures |r| <= |desc|
    ensures r != desc ==> StartsWithCI(desc, name) && |r| + |name| + 4 <= |desc|
  {
    desc[MatchEnd(desc, name)..]
  }

  function ProjectSpec(prj: Project): ChunkSpec {
    var name := Show(prj.name);
    ChunkSpec(None, ProjectChunk, "projects",
      Some(name + " \U{2014} " + Show(prj.status)),
      Some([Some("project"), prj.category]),
      Some(Template(ProjectTemplate,
        [name, StripNamePrefix(prj.description, name), Join(prj.techStack, ", "), Join(prj.features, ", ")])),
      if prj.links.Some? then Some(ObjectValue(prj.links.value)) else None,
      None)
  }

  function ProjectSection(pr: Profile): seq<ChunkSpec> {
    MapSeq(ProjectSpec, pr.projects)
  }

  function SkillSpec(entry: (string, seq<string>)): ChunkSpec {
    ChunkSpec(None, SkillChunk, "skills",
      Some("Skills \U{2014} " + entry.0),
      Some([Some("skills"), Some(entry.0)]),
      Some(Template(SkillTemplate, [Join(entry.1, ", ")])),
      None, None)
  }

  function SkillSection(pr: Profile): seq<ChunkSpec> {
    MapSeq(SkillSpec, pr.skills)
  }

  /* ---------- Assembly ---------- */

  /** The specs a section of type `t` contributes. */
  function SectionSpecs(pr: Profile, t: ChunkType): seq<ChunkSpec> {
    match t
    case MetaChunk => MetaSection(pr)
    case AuditChunk => AuditSection(pr)
    case IdentityChunk => IdentitySection(pr)
    case ContactChunk => ContactSection(pr)
    case SocialChunk => SocialSection(pr)
    case BioChunk => BioSection(pr)
    case CareerChunk => CareerSection(pr)
    case InterestChunk => InterestSection(pr)
    case EducationChunk => EducationSection(pr)
    case AchievementChunk => AwardSection(pr)
    case StatChunk => StatSection(pr)
    case ExperienceChunk => ExperienceSection(pr)
    case ProjectChunk => ProjectSection(pr)
    case SkillChunk => SkillSection(pr)
  }

  /** The number of sections. */
  const SectionCount: nat := 14

  /** The section the source visits `k`-th. */
  function TypeAt(k: nat): ChunkType
    requires k < SectionCount
  {
     if k == 0 then MetaChunk
    else if k == 1 then AuditChunk
    else if k == 2 then IdentityChunk
    else if k == 3 then ContactChunk
    else if k == 4 then SocialChunk
    else if k == 5 then BioChunk
    else if k == 6 then CareerChunk
    else if k == 7 then InterestChunk
    else if k == 8 then EducationChunk
    else if k == 9 then AchievementChunk
    else if k == 10 then StatChunk
    else if k == 11 then ExperienceChunk
    else if k == 12 then ProjectChunk
    else SkillChunk
  }

  /** Where the section of type `t` comes in the visiting order. */
  function Position(t: ChunkType): (k: nat)
    ensures k < SectionCount && TypeAt(k) == t
  {
    match t
    case MetaChunk => 0
    case AuditChunk => 1
    case IdentityChunk => 2
    case ContactChunk => 3
    case SocialChunk => 4
    case BioChunk => 5
    case CareerChunk => 6
    case InterestChunk => 7
    case EducationChunk => 8
    case AchievementChunk => 9
    case StatChunk => 10
    case ExperienceChunk => 11
    case ProjectChunk => 12
    case SkillChunk => 13
  }

  /** The order is a bijection: each position holds a different type. */
  lemma PositionOfTypeAt(k: nat)
    requires k < SectionCount
    ensures Position(TypeAt(k)) == k
  {
  }

  /** The specs of the sections from position `k` on, in order, where
      `section(t)` is what the section of type `t` contributes. */
  function SectionsFrom(section: ChunkType -> seq<ChunkSpec>, k: nat): seq<ChunkSpec>
    decreases SectionCount - k
  {
    if k >= SectionCount then [] else section(TypeAt(k)) + SectionsFrom(section, k + 1)
  }

  /** The sections of `pr`, by type. */
  function Sections(pr: Profile): ChunkType -> seq<ChunkSpec> {
    t => SectionSpecs(pr, t)
  }

  /** Every spec the normaliser pushes, in push order. */
  function Specs(pr: Profile): seq<ChunkSpec> {
    SectionsFrom(Sections(pr), 0)
  }

  /** `normalizePortfolio()` on an already parsed profile. */
  function NormalizePortfolio(pr: Profile): seq<Chunk> {
    PushAll([], Specs(pr))
  }

  /** The JSON document written to `normalized.json`. */
  datatype NormalizedOutput = NormalizedOutput(generatedAt: string, count: nat, chunks: seq<Chunk>)

  /** The persisted document; the clock reading is a parameter. Its `count`
      is the number of chunks it carries, which is the number of specs the
      sections produced. */
  function Persist(generatedAt: string, pr: Profile): (o: NormalizedOutput)
    ensures o.count == |o.chunks| == ChunkCount(pr)
    ensures o.generatedAt == generatedAt
  {
    var chunks := NormalizePortfolio(pr);
    NormalizeCount(pr);
    NormalizedOutput(generatedAt, |chunks|, chunks)
  }

  /* ---------- Counting ---------- */

  function Ind(b: bool): nat {
    if b then 1 else 0
  }

  /** The number of chunks the source produces, section by section. */
  function ChunkCount(pr: Profile): nat {
    var cps := pr.achievements.competitiveProgramming;
    Ind(pr.meta.Some?) + Ind(HasAudit(pr)) + 1 + 1 + Ind(pr.socialLinks.Some?)
      + |pr.personalInfo.bio| + Ind(pr.careerPreferences.Some?)
      + |pr.interests| + |pr.education| + |pr.achievements.awards|
      + Ind(cps.leetcode.Some?) + Ind(cps.codechef.Some?) + Ind(cps.codeforces.Some?)
      + Ind(cps.geeksforgeeks.Some?) + Ind(pr.achievements.overallStats.Some?)
      + |pr.experience| + |pr.projects| + |pr.skills|
  }

  /** How many specs the section of type `t` contributes. */
  function SizeOf(pr: Profile, t: ChunkType): nat {
    var cps := pr.achievements.competitiveProgramming;
    match t
    case MetaChunk => Ind(pr.meta.Some?)
    case AuditChunk => Ind(HasAudit(pr))
    case IdentityChunk => 1
    case ContactChunk => 1
    case SocialChunk => Ind(pr.socialLinks.Some?)
    case BioChunk => |pr.personalInfo.bio|
    case CareerChunk => Ind(pr.careerPreferences.Some?)
    case InterestChunk => |pr.interests|
    case EducationChunk => |pr.education|
    case AchievementChunk => |pr.achievements.awards|
    case StatChunk =>
      Ind(cps.leetcode.Some?) + Ind(cps.codechef.Some?) + Ind(cps.codeforces.Some?)
        + Ind(cps.geeksforgeeks.Some?) + Ind(pr.achievements.overallStats.Some?)
    case ExperienceChunk => |pr.experience|
    case ProjectChunk => |pr.projects|
    case SkillChunk => |pr.skills|
  }

  /** The section sizes of `pr`, by type. */
  function Sizes(pr: Profile): ChunkType -> nat {
    t => SizeOf(pr, t)
  }

  lemma SectionSize(pr: Profile, t: ChunkType)
    ensures |SectionSpecs(pr, t)| == SizeOf(pr, t)
  {
    if t == StatChunk {
      StatSectionSize(pr);
    }
  }

  lemma StatSectionSize(pr: Profile)
    ensures |StatSection(pr)| == SizeOf(pr, StatChunk)
  {
    var cps := pr.achievements.competitiveProgramming;
    assert |LeetCodeSection(pr)| == Ind(cps.leetcode.Some?);
    assert |CodeChefSection(pr)| == Ind(cps.codechef.Some?);
    assert |CodeforcesSection(pr)| == Ind(cps.codeforces.Some?);
    assert |GeeksForGeeksSection(pr)| == Ind(cps.geeksforgeeks.Some?);
    assert |OverallSection(pr)| == Ind(pr.achievements.overallStats.Some?);
  }

  /** The total size of the sections from position `k` on. */
  function SizeFrom(size: ChunkType -> nat, k: nat): nat
    decreases SectionCount - k
  {
    if k >= SectionCount then 0 else size(TypeAt(k)) + SizeFrom(size, k + 1)
  }

  lemma {:induction false} SectionsFromSize(section: ChunkType -> seq<ChunkSpec>, size: ChunkType -> nat, k: nat)
    requires forall t :: |section(t)| == size(t)
    ensures |SectionsFrom(section, k)| == SizeFrom(size, k)
    decreases SectionCount - k
  {
    if k < SectionCount {
      SectionsFromSize(section, size, k + 1);
    }
  }

  lemma SizeFromStart(pr: Profile)
    ensures SizeFrom(Sizes(pr), 0) == ChunkCount(pr)
  {
    SizeFromAll(Sizes(pr));
    SectionSizesAdd(pr);
  }

  /** The sum from the first position is the sum over every type. */
  lemma SizeFromAll(size: ChunkType -> nat)
    ensures SizeFrom(size, 0) == size(MetaChunk) + size(AuditChunk) + size(IdentityChunk) + size(ContactChunk)
      + size(SocialChunk) + size(BioChunk) + size(CareerChunk) + size(InterestChunk) + size(EducationChunk)
      + size(AchievementChunk) + size(StatChunk) + size(ExperienceChunk) + size(ProjectChunk) + size(SkillChunk)
  {
    assert SizeFrom(size, 14) == 0;
    assert SizeFrom(size, 13) == size(SkillChunk) + SizeFrom(size, 14);
    assert SizeFrom(size, 12) == size(ProjectChunk) + SizeFrom(size, 13);
    assert SizeFrom(size, 11) == size(ExperienceChunk) + SizeFrom(size, 12);
    assert SizeFrom(size, 10) == size(StatChunk) + SizeFrom(size, 11);
    assert SizeFrom(size, 9) == size(AchievementChunk) + SizeFrom(size, 10);
    assert SizeFrom(size, 8) == size(EducationChunk) + SizeFrom(size, 9);
    assert SizeFrom(size, 7) == size(InterestChunk) + SizeFrom(size, 8);
    assert SizeFrom(size, 6) == size(CareerChunk) + SizeFrom(size, 7);
    assert SizeFrom(size, 5) == size(BioChunk) + SizeFrom(size, 6);
    assert SizeFrom(size, 4) == size(SocialChunk) + SizeFrom(size, 5);
    assert SizeFrom(size, 3) == size(ContactChunk) + SizeFrom(size, 4);
    assert SizeFrom(size, 2) == size(IdentityChunk) + SizeFrom(size, 3);
    assert SizeFrom(size, 1) == size(AuditChunk) + SizeFrom(size, 2);
  }

  lemma SectionSizesAdd(pr: Profile)
    ensures SizeOf(pr, MetaChunk) + SizeOf(pr, AuditChunk) + SizeOf(pr, IdentityChunk) + SizeOf(pr, ContactChunk) + SizeOf(pr, SocialChunk) + SizeOf(pr, BioChunk) + SizeOf(pr, CareerChunk) + SizeOf(pr, InterestChunk) + SizeOf(pr, EducationChunk) + SizeOf(pr, AchievementChunk) + SizeOf(pr, StatChunk) + SizeOf(pr, ExperienceChunk) + SizeOf(pr, ProjectChunk) + SizeOf(pr, SkillChunk) == ChunkCount(pr)
  {
  }

  /** One chunk per spec: the chunk count is the sum of the section sizes. */
  lemma NormalizeCount(pr: Profile)
    ensures |NormalizePortfolio(pr)| == ChunkCount(pr)
  {
    PushAllAppends([], Specs(pr));
    AllSectionSizes(pr);
    SectionsFromSize(Sections(pr), Sizes(pr), 0);
    SizeFromStart(pr);
  }

  lemma AllSectionSizes(pr: Profile)
    ensures forall t :: |Sections(pr)(t)| == Sizes(pr)(t)
  {
    forall t: ChunkType
      ensures |SectionSpecs(pr, t)| == SizeOf(pr, t)
    {
      SectionSize(pr, t);
    }
  }


  /* ---------- Sections by chunk type ---------- */

  /** The chunks of type `t`, in order. */
  function OfType(chunks: seq<Chunk>, t: ChunkType): seq<Chunk> {
    if |chunks| == 0 then []
    else (if chunks[0].chunkType == t then [chunks[0]] else []) + OfType(chunks[1..], t)
  }

  /** The specs of type `t`, in order. */
  function SpecsOfType(specs: seq<ChunkSpec>, t: ChunkType): seq<ChunkSpec> {
    if |specs| == 0 then []
    else (if specs[0].chunkType == t then [specs[0]] else []) + SpecsOfType(specs[1..], t)
  }

  /** What every section promises about its specs: the section's own type, no
      explicit id, and `shouldEmbed: false` exactly on the administrative
      sections. */
  predicate SpecOfSection(s: ChunkSpec, t: ChunkType) {
    && s.chunkType == t
    && s.id == None
    && s.shouldEmbed == (if IsAdministrative(t) then Some(false) else None)
  }

  predicate AllOfSection(specs: seq<ChunkSpec>, t: ChunkType) {
    forall i :: 0 <= i < |specs| ==> SpecOfSection(specs[i], t)
  }

  lemma AllOfSectionAppend(a: seq<ChunkSpec>, b: seq<ChunkSpec>, t: ChunkType)
    requires AllOfSection(a, t) && AllOfSection(b, t)
    ensures AllOfSection(a + b, t)
  {
    forall i | 0 <= i < |a + b|
      ensures SpecOfSection((a + b)[i], t)
    {
      if i < |a| {
        assert (a + b)[i] == a[i];
      } else {
        assert (a + b)[i] == b[i - |a|];
      }
    }
  }

  lemma LeetCodeShape(pr: Profile)
    ensures AllOfSection(LeetCodeSection(pr), StatChunk)
  {
  }

  lemma CodeChefShape(pr: Profile)
    ensures AllOfSection(CodeChefSection(pr), StatChunk)
  {
  }

  lemma CodeforcesShape(pr: Profile)
    ensures AllOfSection(CodeforcesSection(pr), StatChunk)
  {
  }

  lemma GeeksForGeeksShape(pr: Profile)
    ensures AllOfSection(GeeksForGeeksSection(pr), StatChunk)
  {
  }

  lemma OverallShape(pr: Profile)
    ensures AllOfSection(OverallSection(pr), StatChunk)
  {
  }

  lemma StatSectionShape(pr: Profile)
    ensures AllOfSection(StatSection(pr), StatChunk)
  {
    LeetCodeShape(pr);
    CodeChefShape(pr);
    CodeforcesShape(pr);
    GeeksForGeeksShape(pr);
    OverallShape(pr);
    var l, c, f, g, o := LeetCodeSection(pr), CodeChefSection(pr), CodeforcesSection(pr), GeeksForGeeksSection(pr), OverallSection(pr);
    AllOfSectionAppend(l, c, StatChunk);
    AllOfSectionAppend(l + c, f, StatChunk);
    AllOfSectionAppend(l + c + f, g, StatChunk);
    AllOfSectionAppend(l + c + f + g, o, StatChunk);
  }

  lemma MapSeqShape<X>(f: X -> ChunkSpec, xs: seq<X>, t: ChunkType)
    requires forall x :: SpecOfSection(f(x), t)
    ensures AllOfSection(MapSeq(f, xs), t)
  {
    MapSeqIndex(f, xs);
  }

  lemma BioSectionShape(pr: Profile)
    ensures AllOfSection(BioSection(pr), BioChunk)
  {
    var name := DisplayName(pr);
    MapSeqShape((e: (string, Field)) => BioSpec(name, e), pr.personalInfo.bio, BioChunk);
  }

  lemma InterestSectionShape(pr: Profile)
    ensures AllOfSection(InterestSection(pr), InterestChunk)
  {
    MapSeqShape(InterestSpec, pr.interests, InterestChunk);
  }

  lemma EducationSectionShape(pr: Profile)
    ensures AllOfSection(EducationSection(pr), EducationChunk)
  {
    MapSeqShape(EducationSpec, pr.education, EducationChunk);
  }

  lemma AwardSectionShape(pr: Profile)
    ensures AllOfSection(AwardSection(pr), AchievementChunk)
  {
    MapSeqShape(AwardSpec, pr.achievements.awards, AchievementChunk);
  }

  lemma ExperienceSectionShape(pr: Profile)
    ensures AllOfSection(ExperienceSection(pr), ExperienceChunk)
  {
    MapSeqShape(ExperienceSpec, pr.experience, ExperienceChunk);
  }

  lemma ProjectSectionShape(pr: Profile)
    ensures AllOfSection(ProjectSection(pr), ProjectChunk)
  {
    forall prj: Project
      ensures SpecOfSection(ProjectSpec(prj), ProjectChunk)
    {
      ProjectSpecShape(prj);
    }
    MapSeqShape(ProjectSpec, pr.projects, ProjectChunk);
  }

  lemma ProjectSpecShape(prj: Project)
    ensures SpecOfSection(ProjectSpec(prj), ProjectChunk)
  {
  }

  lemma SkillSectionShape(pr: Profile)
    ensures AllOfSection(SkillSection(pr), SkillChunk)
  {
    MapSeqShape(SkillSpec, pr.skills, SkillChunk);
  }

  lemma MetaSectionShape(pr: Profile)
    ensures AllOfSection(MetaSection(pr), MetaChunk)
  {
  }

  lemma AuditSectionShape(pr: Profile)
    ensures AllOfSection(AuditSection(pr), AuditChunk)
  {
  }

  lemma IdentitySectionShape(pr: Profile)
    ensures AllOfSection(IdentitySection(pr), IdentityChunk)
  {
  }

  lemma ContactSectionShape(pr: Profile)
    ensures AllOfSection(ContactSection(pr), ContactChunk)
  {
  }

  lemma SocialSectionShape(pr: Profile)
    ensures AllOfSection(SocialSection(pr), SocialChunk)
  {
  }

  lemma CareerSectionShape(pr: Profile)
    ensures AllOfSection(CareerSection(pr), CareerChunk)
  {
  }

  lemma SectionShape(pr: Profile, t: ChunkType)
    ensures AllOfSection(SectionSpecs(pr, t), t)
  {
    match t
    case BioChunk => BioSectionShape(pr);
    case InterestChunk => InterestSectionShape(pr);
    case EducationChunk => EducationSectionShape(pr);
    case AchievementChunk => AwardSectionShape(pr);
    case StatChunk => StatSectionShape(pr);
    case ExperienceChunk => ExperienceSectionShape(pr);
    case ProjectChunk => ProjectSectionShape(pr);
    case SkillChunk => SkillSectionShape(pr);
    case MetaChunk => MetaSectionShape(pr);
    case AuditChunk => AuditSectionShape(pr);
    case IdentityChunk => IdentitySectionShape(pr);
    case ContactChunk => ContactSectionShape(pr);
    case SocialChunk => SocialSectionShape(pr);
    case CareerChunk => CareerSectionShape(pr);
  }

  lemma {:induction false} SpecsOfTypeAppend(a: seq<ChunkSpec>, b: seq<ChunkSpec>, t: ChunkType)
    ensures SpecsOfType(a + b, t) == SpecsOfType(a, t) + SpecsOfType(b, t)
  {
    if |a| > 0 {
      assert (a + b)[1..] == a[1..] + b;
      SpecsOfTypeAppend(a[1..], b, t);
    } else {
      assert a + b == b;
    }
  }

  lemma {:induction false} SpecsOfTypeUniform(specs: seq<ChunkSpec>, u: ChunkType, t: ChunkType)
    requires AllOfSection(specs, u)
    ensures SpecsOfType(specs, t) == if u == t then specs else []
  {
    if |specs| > 0 {
      SpecsOfTypeUniform(specs[1..], u, t);
      assert specs == [specs[0]] + specs[1..];
    }
  }

  /** Filtering a section followed by more specs keeps the whole section or
      none of it. */
  lemma FilterSection(here: seq<ChunkSpec>, rest: seq<ChunkSpec>, u: ChunkType, t: ChunkType)
    requires AllOfSection(here, u)
    ensures SpecsOfType(here + rest, t) == (if u == t then here else []) + SpecsOfType(rest, t)
  {
    SpecsOfTypeUniform(here, u, t);
    SpecsOfTypeAppend(here, rest, t);
  }

  /** Filtering the sections from position `k` on by type picks out the one
      section of that type, if it comes at or after `k`. */
  lemma {:induction false} SectionsFromOfType(section: ChunkType -> seq<ChunkSpec>, k: nat, t: ChunkType)
    requires forall u :: AllOfSection(section(u), u)
    ensures SpecsOfType(SectionsFrom(section, k), t) == if k <= Position(t) then section(t) else []
    decreases SectionCount - k
  {
    if k < SectionCount {
      SectionsFromOfType(section, k + 1, t);
      OfTypeStep(section, k, t);
    }
  }

  lemma OfTypeStep(section: ChunkType -> seq<ChunkSpec>, k: nat, t: ChunkType)
    requires k < SectionCount
    requires forall u :: AllOfSection(section(u), u)
    requires SpecsOfType(SectionsFrom(section, k + 1), t) == if k + 1 <= Position(t) then section(t) else []
    ensures SpecsOfType(SectionsFrom(section, k), t) == if k <= Position(t) then section(t) else []
  {
    var u := TypeAt(k);
    FilterSection(section(u), SectionsFrom(section, k + 1), u, t);
    PositionOfTypeAt(k);
  }

  /** For any map that keeps the type, filtering the images by type is
      mapping the filtered specs. */
  lemma {:induction false} OfTypeMap(f: ChunkSpec -> Chunk, specs: seq<ChunkSpec>, t: ChunkType)
    requires forall s :: f(s).chunkType == s.chunkType
    ensures OfType(MapSeq(f, specs), t) == MapSeq(f, SpecsOfType(specs, t))
    decreases |specs|
  {
    if |specs| > 0 {
      var mapped := MapSeq(f, specs);
      assert mapped == [f(specs[0])] + MapSeq(f, specs[1..]);
      assert mapped[0] == f(specs[0]) && mapped[1..] == MapSeq(f, specs[1..]);
      assert mapped[0].chunkType == specs[0].chunkType;
      OfTypeMap(f, specs[1..], t);
      var rest := SpecsOfType(specs[1..], t);
      if specs[0].chunkType == t {
        assert OfType(mapped, t) == [mapped[0]] + OfType(mapped[1..], t);
        assert SpecsOfType(specs, t) == [specs[0]] + rest;
        assert MapSeq(f, [specs[0]] + rest) == [f(specs[0])] + MapSeq(f, rest);
      } else {
        assert OfType(mapped, t) == OfType(mapped[1..], t);
        assert SpecsOfType(specs, t) == rest;
      }
    }
  }

  lemma OfTypeBuildAll(specs: seq<ChunkSpec>, t: ChunkType)
    ensures OfType(BuildAll(specs), t) == BuildAll(SpecsOfType(specs, t))
  {
    forall s
      ensures BuildChunk(s).chunkType == s.chunkType
    {
    }
    OfTypeMap(BuildChunk, specs, t);
  }

  /** Every section is of its own type. */
  lemma AllSectionsShaped(pr: Profile)
    ensures forall u :: AllOfSection(Sections(pr)(u), u)
  {
    forall u: ChunkType
      ensures AllOfSection(SectionSpecs(pr, u), u)
    {
      SectionShape(pr, u);
    }
  }

  /** Whatever the sections hold, as long as each is of its own type, the
      chunks of type `t` are the section of type `t`, built, in order. */
  lemma SectionsByType(section: ChunkType -> seq<ChunkSpec>, t: ChunkType)
    requires forall u :: AllOfSection(section(u), u)
    ensures OfType(PushAll([], SectionsFrom(section, 0)), t) == BuildAll(section(t))
  {
    var specs := SectionsFrom(section, 0);
    PushAllAppends([], specs);
    assert PushAll([], specs) == BuildAll(specs);
    OfTypeBuildAll(specs, t);
    SectionsFromOfType(section, 0, t);
    assert SpecsOfType(specs, t) == section(t);
  }

  /** The chunks of each type are exactly that section's specs, built, in the
      order the section produced them: sections never interleave, and no
      chunk of one type comes from another section. */
  lemma NormalizeByType(pr: Profile, t: ChunkType)
    ensures OfType(NormalizePortfolio(pr), t) == BuildAll(SectionSpecs(pr, t))
  {
    AllSectionsShaped(pr);
    SectionsByType(Sections(pr), t);
  }

  /** How many chunks of each type there are: one identity and one contact
      chunk always, one per element for the list sections, and at most one
      for each optional section. */
  lemma NormalizeTypeCount(pr: Profile, t: ChunkType)
    ensures |OfType(NormalizePortfolio(pr), t)| == SizeOf(pr, t)
  {
    NormalizeByType(pr, t);
    SectionSize(pr, t);
  }
}
