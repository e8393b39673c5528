/** The profile document as `normalizePortfolio` (src/rag/normalize.js) finds
    it, before anything is known about the values it dereferences without a
    check. A project's `description` must be a string and its `techStack`
    and `features` arrays, and every value of `skills` an array: otherwise
    `.replace` or `.join` throws a TypeError, the run stops at that point
    and nothing is written. `Normalize` describes the run on a document
    where all of these hold. */
module Validate {
  import opened Wrappers
  import opened Profiles
  import opened Chunks
  import opened Normalize

  /** A project as the document holds it: `None` where the value is missing
      or lacks the method the code calls on it. */
  datatype RawProject = RawProject(
    name: Field,
    status: Field,
    category: Field,
    description: Option<string>,
    techStack: Option<seq<string>>,
    features: Option<seq<string>>,
    links: Option<map<string, string>>)

  /** A skills entry of the document: its category and, when it is an array,
      its skills. */
  type RawSkills = (string, Option<seq<string>>)

  /** The document. `profile` supplies every other section; `projects` and
      `skills` are the document's own, unchecked, and take the place of
      `profile.projects` and `profile.skills`. */
  datatype Document = Document(profile: Profile, projects: seq<RawProject>, skills: seq<RawSkills>)

  /** The dereference that throws inside a project. */
  datatype Fault = NoDescription | NoTechStack | NoFeatures

  /** The TypeError that stops the run: the zero-based position of the
      project, or the category of the skills entry, where it was thrown. */
  datatype NormalizeError = BadProject(index: nat, fault: Fault) | SkillsNotList(category: string)

  predicate WellFormed(p: RawProject) {
    p.description.Some? && p.techStack.Some? && p.features.Some?
  }

  /** The first value of a project that throws, in evaluation order:
      `description.replace` comes first, then the text template's
      `techStack.join` and `features.join`, left to right. */
  function ProjectFault(p: RawProject): (f: Option<Fault>)
    ensures f.None? <==> WellFormed(p)
  {
    if p.description.None? then Some(NoDescription)
    else if p.techStack.None? then Some(NoTechStack)
    else if p.features.None? then Some(NoFeatures)
    else None
  }

  /** A project known to be well formed, and the way back. */
  function Checked(p: RawProject): Project
    requires WellFormed(p)
  {
    Project(p.name, p.status, p.category, p.description.value, p.techStack.value, p.features.value, p.links)
  }

  function Raw(p: Project): RawProject {
    RawProject(p.name, p.status, p.category, Some(p.description), Some(p.techStack), Some(p.features), p.links)
  }

  function RawSkill(entry: (string, seq<string>)): RawSkills {
    (entry.0, Some(entry.1))
  }

  /** The projects in order, up to the first that throws; `from` is the
      position of `ps[0]` in the document. */
  function CheckProjects(ps: seq<RawProject>, from: nat): Result<seq<Project>, NormalizeError>
    decreases |ps|
  {
    if |ps| == 0 then Success([])
    else
      match ProjectFault(ps[0])
      case Some(f) => Failure(BadProject(from, f))
      case None =>
        match CheckProjects(ps[1..], from + 1)
        case Failure(e) => Failure(e)
        case Success(rest) => Success([Checked(ps[0])] + rest)
  }

  /** The skills entries in order, up to the first that is not an array. */
  function CheckSkills(ss: seq<RawSkills>): Result<seq<(string, seq<string>)>, NormalizeError>
  {
    if |ss| == 0 then Success([])
    else if ss[0].1.None? then Failure(SkillsNotList(ss[0].0))
    else
      match CheckSkills(ss[1..])
      case Failure(e) => Failure(e)
      case Success(rest) => Success([(ss[0].0, ss[0].1.value)] + rest)
  }

  /** The document's projects and skills checked in walk order: the profile
      the sections then read, or the TypeError. The sections before the
      projects only push to a local array, so a throw leaves nothing of
      them behind. The project section runs before the skills section, so
      a bad project is reported before a bad skills entry. */
  function CheckDocument(d: Document): Result<Profile, NormalizeError> {
    match CheckProjects(d.projects, 0)
    case Failure(e) => Failure(e)
    case Success(projects) =>
      match CheckSkills(d.skills)
      case Failure(e) => Failure(e)
      case Success(skills) => Success(d.profile.(projects := projects, skills := skills))
  }

  /** `normalizePortfolio()` on the document: the chunks, or the TypeError. */
  function NormalizeDocument(d: Document): Result<seq<Chunk>, NormalizeError> {
    match CheckDocument(d)
    case Failure(e) => Failure(e)
    case Success(pr) => Success(NormalizePortfolio(pr))
  }

  /** The written document, or the error that stopped the run before the
      write. */
  function PersistDocument(generatedAt: string, d: Document): (r: Result<NormalizedOutput, NormalizeError>)
    ensures r.Success? <==> CheckDocument(d).Success?
    ensures r.Failure? ==> r.error == CheckDocument(d).error
    ensures r.Success? ==> r.value.chunks == NormalizePortfolio(CheckDocument(d).value) && r.value.count == |r.value.chunks|
    ensures r.Success? ==> r.value.generatedAt == generatedAt
  {
    match CheckDocument(d)
    case Failure(e) => Failure(e)
    case Success(pr) => Success(Persist(generatedAt, pr))
  }

  /* ---------- Projects ---------- */

  /** The check fails exactly when some project is not well formed, and it
      names the first such project, at its position in the document, with
      the first value of it that throws. */
  lemma {:induction false} CheckProjectsFails(ps: seq<RawProject>, from: nat)
    ensures CheckProjects(ps, from).Failure? <==> exists i :: 0 <= i < |ps| && !WellFormed(ps[i])
    ensures CheckProjects(ps, from).Failure? ==>
      var e := CheckProjects(ps, from).error;
      && e.BadProject? && from <= e.index < from + |ps|
      && ProjectFault(ps[e.index - from]) == Some(e.fault)
      && forall j :: 0 <= j < e.index - from ==> WellFormed(ps[j])
    decreases |ps|
  {
    if |ps| > 0 && WellFormed(ps[0]) {
      CheckProjectsFails(ps[1..], from + 1);
      if exists i :: 0 <= i < |ps| && !WellFormed(ps[i]) {
        var i :| 0 <= i < |ps| && !WellFormed(ps[i]);
        assert ps[1..][i - 1] == ps[i];
      }
      if CheckProjects(ps, from).Failure? {
        var e := CheckProjects(ps, from).error;
        forall j | 0 <= j < e.index - from
          ensures WellFormed(ps[j])
        {
          if j > 0 {
            assert ps[j] == ps[1..][j - 1];
          }
        }
      }
    }
  }

  /** A successful check hands the projects through unchanged: lifting the
      result back gives the document's projects. */
  lemma {:induction false} CheckProjectsKeeps(ps: seq<RawProject>, from: nat)
    requires CheckProjects(ps, from).Success?
    ensures MapSeq(Raw, CheckProjects(ps, from).value) == ps
    decreases |ps|
  {
    if |ps| > 0 {
      CheckProjectsKeeps(ps[1..], from + 1);
      var rest := CheckProjects(ps[1..], from + 1).value;
      assert CheckProjects(ps, from).value == [Checked(ps[0])] + rest;
      assert ([Checked(ps[0])] + rest)[1..] == rest;
      assert ps == [ps[0]] + ps[1..];
    }
  }

  /** Well-formed projects pass the check as they are. */
  lemma {:induction false} CheckProjectsOfRaw(ps: seq<Project>, from: nat)
    ensures CheckProjects(MapSeq(Raw, ps), from) == Success(ps)
    decreases |ps|
  {
    if |ps| > 0 {
      CheckProjectsOfRaw(ps[1..], from + 1);
      var raw := MapSeq(Raw, ps);
      assert raw[1..] == MapSeq(Raw, ps[1..]);
      assert ps == [ps[0]] + ps[1..];
    }
  }

  /* ---------- Skills ---------- */

  /** The check fails exactly when some skills value is not an array, and it
      names the category of the first such entry. */
  lemma {:induction false} CheckSkillsFails(ss: seq<RawSkills>)
    ensures CheckSkills(ss).Failure? <==> exists i :: 0 <= i < |ss| && ss[i].1.None?
    ensures CheckSkills(ss).Failure? ==>
      exists i :: 0 <= i < |ss| && ss[i].1.None? && CheckSkills(ss).error == SkillsNotList(ss[i].0)
        && forall j :: 0 <= j < i ==> ss[j].1.Some?
    decreases |ss|
  {
    if |ss| > 0 && ss[0].1.Some? {
      CheckSkillsFails(ss[1..]);
      if exists i :: 0 <= i < |ss| && ss[i].1.None? {
        var i :| 0 <= i < |ss| && ss[i].1.None?;
        assert ss[1..][i - 1] == ss[i];
      }
      if CheckSkills(ss).Failure? {
        var k :| 0 <= k < |ss[1..]| && ss[1..][k].1.None? && CheckSkills(ss[1..]).error == SkillsNotList(ss[1..][k].0)
          && forall j :: 0 <= j < k ==> ss[1..][j].1.Some?;
        forall j | 0 <= j < k + 1
          ensures ss[j].1.Some?
        {
          if j > 0 {
            assert ss[j] == ss[1..][j - 1];
          }
        }
        assert ss[k + 1] == ss[1..][k];
      }
    }
  }

  /** A successful check hands the entries through unchanged. */
  lemma {:induction false} CheckSkillsKeeps(ss: seq<RawSkills>)
    requires CheckSkills(ss).Success?
    ensures MapSeq(RawSkill, CheckSkills(ss).value) == ss
    decreases |ss|
  {
    if |ss| > 0 {
      CheckSkillsKeeps(ss[1..]);
      var rest := CheckSkills(ss[1..]).value;
      assert CheckSkills(ss).value == [(ss[0].0, ss[0].1.value)] + rest;
      assert ([(ss[0].0, ss[0].1.value)] + rest)[1..] == rest;
      assert ss == [ss[0]] + ss[1..];
    }
  }

  /** Array-valued entries pass the check as they are. */
  lemma {:induction false} CheckSkillsOfRaw(ss: seq<(string, seq<string>)>)
    ensures CheckSkills(MapSeq(RawSkill, ss)) == Success(ss)
    decreases |ss|
  {
    if |ss| > 0 {
      CheckSkillsOfRaw(ss[1..]);
      var raw := MapSeq(RawSkill, ss);
      assert raw[1..] == MapSeq(RawSkill, ss[1..]);
      assert ss == [ss[0]] + ss[1..];
    }
  }

  /* ---------- The run ---------- */

  /** The run throws exactly when some project is not well formed or some
      skills value is not an array. A bad project is reported first, so a
      skills error means every project was well formed. */
  lemma CheckDocumentFails(d: Document)
    ensures CheckDocument(d).Failure? <==>
      (exists i :: 0 <= i < |d.projects| && !WellFormed(d.projects[i]))
      || (exists i :: 0 <= i < |d.skills| && d.skills[i].1.None?)
    ensures CheckDocument(d).Failure? && CheckDocument(d).error.SkillsNotList? ==>
      forall i :: 0 <= i < |d.projects| ==> WellFormed(d.projects[i])
  {
    CheckProjectsFails(d.projects, 0);
    CheckSkillsFails(d.skills);
  }

  /** On success the sections read the document's own projects and skills,
      unchanged, and every other section of the profile as it is. */
  lemma CheckDocumentSucceeds(d: Document)
    requires CheckDocument(d).Success?
    ensures var pr := CheckDocument(d).value;
      && MapSeq(Raw, pr.projects) == d.projects
      && MapSeq(RawSkill, pr.skills) == d.skills
      && pr.(projects := d.profile.projects, skills := d.profile.skills) == d.profile
  {
    CheckProjectsKeeps(d.projects, 0);
    CheckSkillsKeeps(d.skills);
  }

  /** A document written from a well-formed profile checks back to that
      profile. */
  lemma CheckDocumentOfProfile(pr: Profile)
    ensures CheckDocument(Document(pr, MapSeq(Raw, pr.projects), MapSeq(RawSkill, pr.skills))) == Success(pr)
  {
    CheckProjectsOfRaw(pr.projects, 0);
    CheckSkillsOfRaw(pr.skills);
    assert pr.(projects := pr.projects, skills := pr.skills) == pr;
  }

  /** So such a document normalises to that profile's chunks. */
  lemma NormalizeDocumentOfProfile(pr: Profile)
    ensures NormalizeDocument(Document(pr, MapSeq(Raw, pr.projects), MapSeq(RawSkill, pr.skills)))
      == Success(NormalizePortfolio(pr))
  {
    CheckDocumentOfProfile(pr);
  }
}
