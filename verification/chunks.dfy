/** Chunks and `pushChunk` / `mkId` (src/rag/normalize.js): the record every
    section of the normaliser emits, with its defaults filled in. */
module Chunks {
  import opened Wrappers
  import opened Slug
  import opened FirstPerson

  datatype ChunkType =
    | MetaChunk | AuditChunk | IdentityChunk | ContactChunk | SocialChunk | BioChunk | CareerChunk
    | InterestChunk | EducationChunk | AchievementChunk | StatChunk | ExperienceChunk | ProjectChunk | SkillChunk

  /** The `chunkType` string the source writes. */
  function TypeName(t: ChunkType): string {
    match t
    case MetaChunk => "meta"
    case AuditChunk => "metaAudit"
    case IdentityChunk => "identity"
    case ContactChunk => "contact"
    case SocialChunk => "social"
    case BioChunk => "bio"
    case CareerChunk => "careerPreference"
    case InterestChunk => "interest"
    case EducationChunk => "education"
    case AchievementChunk => "achievement"
    case StatChunk => "stat"
    case ExperienceChunk => "experience"
    case ProjectChunk => "project"
    case SkillChunk => "skill"
  }

  /** The chunk types the source marks `shouldEmbed: false`: profile
      metadata, the save-time audit record and the social-link listing. */
  predicate IsAdministrative(t: ChunkType) {
    t == MetaChunk || t == AuditChunk || t == SocialChunk
  }

  /** A value in a chunk's `meta` object. */
  datatype Value = Undefined | Str(s: string) | List(items: seq<string>)

  type Meta = map<string, Value>

  function FieldValue(f: Field): Value {
    match f
    case Some(s) => Str(s)
    case None => Undefined
  }

  function ListValue(xs: Option<seq<string>>): Value {
    match xs
    case Some(v) => List(v)
    case None => Undefined
  }

  /** A string-to-string JSON object carried as a `meta` map. */
  function ObjectValue(m: map<string, string>): (r: Meta)
    ensures r.Keys == m.Keys
    ensures forall k :: k in m ==> r[k] == Str(m[k])
  {
    map k | k in m :: Str(m[k])
  }

  /** The object literal a section passes to `pushChunk`; an absent property
      is `None`. */
  datatype ChunkSpec = ChunkSpec(
    id: Field,
    chunkType: ChunkType,
    source: string,
    title: Field,
    tags: Option<seq<Field>>,
    text: Field,
    meta: Option<Meta>,
    shouldEmbed: Option<bool>)

  datatype Chunk = Chunk(
    id: string,
    chunkType: ChunkType,
    source: string,
    title: Field,
    tags: seq<Field>,
    text: string,
    meta: Meta,
    shouldEmbed: bool)

  /** `mkId(prefix, title)`: the prefix, a hyphen, and the slug of the title,
      or of "item" when the title is missing or empty. */
  function MkId(prefix: string, title: Field): string
  {
    prefix + "-" + Slugify(OrStr(title, "item"))
  }

  /** A derived id is the prefix, one hyphen and a slug-shaped tail; a
      missing or empty title gives the tail "item". */
  lemma MkIdShape(prefix: string, title: Field)
    ensures var r := MkId(prefix, title);
      && |r| > |prefix| && r[..|prefix| + 1] == prefix + "-"
      && SlugShaped(r[|prefix| + 1..])
      && (!Truthy(title) ==> r == prefix + "-item")
  {
    var slug := Slugify(OrStr(title, "item"));
    SlugifyShape(OrStr(title, "item"));
    IdShape(prefix, slug);
    if !Truthy(title) {
      DefaultSlug(title);
      ItemId(prefix, slug);
    }
  }

  lemma SlugOfItem()
    ensures Slugify("item") == "item"
  {
    assert SlugShaped("item");
    SlugifyOfSlugShaped("item");
  }

  lemma DefaultSlug(title: Field)
    requires !Truthy(title)
    ensures Slugify(OrStr(title, "item")) == "item"
  {
    SlugOfItem();
  }

  lemma ItemId(prefix: string, slug: string)
    requires slug == "item"
    ensures prefix + "-" + slug == prefix + "-item"
  {
  }

  lemma IdShape(prefix: string, slug: string)
    ensures |prefix + "-" + slug| > |prefix|
    ensures (prefix + "-" + slug)[..|prefix| + 1] == prefix + "-"
    ensures (prefix + "-" + slug)[|prefix| + 1..] == slug
  {
  }

  /** The record `pushChunk` pushes for `spec`. */
  function BuildChunk(spec: ChunkSpec): Chunk {
    Chunk(
      id := if Truthy(spec.id) then spec.id.value else MkId(TypeName(spec.chunkType), spec.title),
      chunkType := spec.chunkType,
      source := spec.source,
      title := spec.title,
      tags := if spec.tags.Some? then spec.tags.value else [],
      text := ToFirstPerson(spec.text),
      meta := if spec.meta.Some? then spec.meta.value else map[],
      shouldEmbed := spec.shouldEmbed != Some(false))
  }

  /** `pushChunk(arr, chunk)`. */
  function PushChunk(chunks: seq<Chunk>, spec: ChunkSpec): seq<Chunk>
  {
    chunks + [BuildChunk(spec)]
  }

  /** `pushChunk` appends exactly one record and leaves the earlier ones
      alone. The new record keeps an explicit non-empty id, else derives
      `<chunkType>-<slug(title || "item")>`; it is embeddable unless the spec
      says `shouldEmbed: false`; tags and meta default to empty; its text is
      the first-person form of the spec's text. */
  lemma PushChunkRecord(chunks: seq<Chunk>, spec: ChunkSpec)
    ensures var r := PushChunk(chunks, spec);
      && |r| == |chunks| + 1 && r[..|chunks|] == chunks
      && var c := r[|chunks|];
      && (Truthy(spec.id) ==> c.id == spec.id.value)
      && (!Truthy(spec.id) ==> c.id == MkId(TypeName(spec.chunkType), spec.title))
      && c.chunkType == spec.chunkType && c.source == spec.source && c.title == spec.title
      && (c.shouldEmbed <==> spec.shouldEmbed != Some(false))
      && (spec.tags.None? ==> c.tags == []) && (spec.tags.Some? ==> c.tags == spec.tags.value)
      && (spec.meta.None? ==> c.meta == map[]) && (spec.meta.Some? ==> c.meta == spec.meta.value)
      && c.text == ToFirstPerson(spec.text)
  {
  }

  /** The fields of a built record that do not depend on its text. */
  lemma BuildChunkHeader(spec: ChunkSpec)
    ensures BuildChunk(spec).chunkType == spec.chunkType
    ensures BuildChunk(spec).title == spec.title
    ensures BuildChunk(spec).shouldEmbed <==> spec.shouldEmbed != Some(false)
    ensures !Truthy(spec.id) ==> BuildChunk(spec).id == MkId(TypeName(spec.chunkType), spec.title)
  {
  }

  /** `xs.forEach(x => push(acc, x))`, with the array threaded through. */
  function PushEach<A, B>(push: (seq<B>, A) -> seq<B>, acc: seq<B>, xs: seq<A>): seq<B>
    decreases |xs|
  {
    if |xs| == 0 then acc
    else PushEach(push, push(acc, xs[0]), xs[1..])
  }

  /** Pushes the records for `specs` in order, as a `forEach` over them does. */
  function PushAll(chunks: seq<Chunk>, specs: seq<ChunkSpec>): seq<Chunk>
  {
    PushEach(PushChunk, chunks, specs)
  }

  /** `f` applied to every element, in order. */
  function MapSeq<A, B>(f: A -> B, xs: seq<A>): (r: seq<B>)
    ensures |r| == |xs|
  {
    if |xs| == 0 then [] else [f(xs[0])] + MapSeq(f, xs[1..])
  }

  /** Element `i` of the mapped sequence is `f` of element `i`. */
  lemma {:induction false} MapSeqAt<A, B>(f: A -> B, xs: seq<A>, i: nat)
    requires i < |xs|
    ensures MapSeq(f, xs)[i] == f(xs[i])
    decreases |xs|
  {
    if i > 0 {
      MapSeqAt(f, xs[1..], i - 1);
    }
  }

  lemma MapSeqIndex<A, B>(f: A -> B, xs: seq<A>)
    ensures forall i :: 0 <= i < |xs| ==> MapSeq(f, xs)[i] == f(xs[i])
  {
    forall i | 0 <= i < |xs|
      ensures MapSeq(f, xs)[i] == f(xs[i])
    {
      MapSeqAt(f, xs, i);
    }
  }

  lemma {:induction false} MapSeqAppend<A, B>(f: A -> B, a: seq<A>, b: seq<A>)
    ensures MapSeq(f, a + b) == MapSeq(f, a) + MapSeq(f, b)
    decreases |a|
  {
    if |a| == 0 {
      assert a + b == b;
    } else {
      assert (a + b)[1..] == a[1..] + b;
      MapSeqAppend(f, a[1..], b);
    }
  }

  /** The records for `specs`, one per spec, in order. */
  function BuildAll(specs: seq<ChunkSpec>): seq<Chunk>
  {
    MapSeq(BuildChunk, specs)
  }

  /** When each push appends exactly `f` of its element, pushing a list
      appends `f` of every element, in order, and keeps what was there. */
  lemma {:induction false} PushEachAppends<A, B>(push: (seq<B>, A) -> seq<B>, f: A -> B, acc: seq<B>, xs: seq<A>)
    requires forall a, x :: push(a, x) == a + [f(x)]
    ensures PushEach(push, acc, xs) == acc + MapSeq(f, xs)
    decreases |xs|
  {
    if |xs| > 0 {
      PushEachAppends(push, f, acc + [f(xs[0])], xs[1..]);
      assert MapSeq(f, xs) == [f(xs[0])] + MapSeq(f, xs[1..]);
    }
  }

  /** Pushing a list of specs appends exactly one record per spec, in order,
      and leaves the records already there alone. */
  lemma PushAllAppends(chunks: seq<Chunk>, specs: seq<ChunkSpec>)
    ensures PushAll(chunks, specs) == chunks + BuildAll(specs)
  {
    forall a, x
      ensures PushChunk(a, x) == a + [BuildChunk(x)]
    {
    }
    PushEachAppends(PushChunk, BuildChunk, chunks, specs);
  }
}
