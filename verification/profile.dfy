/** The profile document the normaliser reads (src/rag/normalize.js), as far as
    the normaliser looks into it. Scalars are `Field`s: missing, or the text
    JavaScript would print for the value. A list the source walks with
    `?.forEach` or `Object.entries` is a plain sequence, since a missing list
    and an empty one produce the same chunks; a list the source prints with
    `?.join` keeps its `Option`, since a missing one prints "undefined". */
module Profiles {
  import opened Wrappers

  datatype ProfileMeta = ProfileMeta(owner: Field, version: Field)

  datatype PersonalInfo = PersonalInfo(
    name: Field,
    title: Field,
    university: Field,
    currentLocation: Field,
    location: Field,
    email: Field,
    phone: Field,
    timezone: Field,
    /** `Object.entries(p.bio)` in enumeration order; empty when `bio` is
        missing or not an object. */
    bio: seq<(string, Field)>)

  datatype CareerPreferences = CareerPreferences(
    availability: Field,
    workModePreferences: Option<seq<string>>,
    jobTypes: Option<seq<string>>,
    targetRoles: Option<seq<string>>,
    preferredDomains: Option<seq<string>>)

  datatype Interest = Interest(name: Field, description: Field)

  datatype Education = Education(
    degree: Field,
    institution: Field,
    duration: Field,
    courses: Option<seq<string>>,
    activities: Option<seq<string>>,
    location: Field,
    status: Field,
    cgpa: Field,
    percentage: Field)

  datatype Award = Award(title: Field, year: Field, description: Field)

  datatype LeetCode = LeetCode(rating: Field, maxRating: Field, percentile: Field, globalRanking: Field, problemsSolved: Field)

  datatype CodeChef = CodeChef(stars: Field, division: Field, rating: Field, maxRating: Field)

  datatype Codeforces = Codeforces(rating: Field, maxRating: Field, rank: Field, problemsSolved: Field)

  datatype GeeksForGeeks = GeeksForGeeks(problemsSolved: Field, rank: Field)

  datatype CompetitiveProgramming = CompetitiveProgramming(
    leetcode: Option<LeetCode>,
    codechef: Option<CodeChef>,
    codeforces: Option<Codeforces>,
    geeksforgeeks: Option<GeeksForGeeks>)

  datatype OverallStats = OverallStats(yearsExperience: Field, commits: Field, totalProblemsSolved: Field)

  datatype Achievements = Achievements(
    awards: seq<Award>,
    competitiveProgramming: CompetitiveProgramming,
    overallStats: Option<OverallStats>)

  datatype Experience = Experience(
    role: Field,
    organization: Field,
    description: Field,
    skills: Option<seq<string>>,
    location: Field)

  /** A well-formed project. `description`, `techStack` and `features` are
      used without optional chaining, so the normaliser needs them; the
      document where they may be missing is `Validate.RawProject`. */
  datatype Project = Project(
    name: Field,
    status: Field,
    category: Field,
    description: string,
    techStack: seq<string>,
    features: seq<string>,
    links: Option<map<string, string>>)

  datatype Profile = Profile(
    meta: Option<ProfileMeta>,
    savedAt: Field,
    personalInfo: PersonalInfo,
    socialLinks: Option<map<string, string>>,
    careerPreferences: Option<CareerPreferences>,
    interests: seq<Interest>,
    education: seq<Education>,
    achievements: Achievements,
    experience: seq<Experience>,
    projects: seq<Project>,
    /** `Object.entries(profile.skills || {})`: each category and its skills
        array (`Validate.RawSkills` when the value may be something else). */
    skills: seq<(string, seq<string>)>)
}
