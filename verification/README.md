# portfolio-server RAG core in Dafny

This project models the deterministic core of the portfolio server's
retrieval-augmented question answering and proves properties of that model.
The core has five parts:

- **The profile normaliser** (`src/rag/normalize.js`). It turns a parsed
  profile into chunk records. It uses `slugify`, `mkId`, `cleanText`, the
  `toFirstPerson` grammar guard and `pushChunk`, and walks fourteen sections
  in a fixed order.
- **The indexer** (`src/rag/embed.js`). It probes the vector-store
  collection and embeds every chunk marked `shouldEmbed`. Each chunk becomes
  a point keyed by a 32-bit rolling hash of the chunk id. All points are
  stored with one upsert.
- **The collection bootstrap** (`src/rag/initQdrant.js`). It classifies a
  `getCollection` error as not-found and/or already-exists, then creates the
  collection, returns, or rethrows.
- **The prompt builder** (`src/rag/generate.js`). It numbers the retrieved
  contexts and builds the two-message chat request. It returns the first
  choice's content.
- **The orchestrator** (`src/rag/ask.js`). It retrieves five contexts. It
  answers with a fixed fallback when there are none, and otherwise calls the
  generator.

External providers are function parameters. These are the embeddings and
chat providers, the vector store's `getCollection`, `createCollection` and
`upsert`, and retrieval. Their effects are recorded as call logs, so "called
once" and "never called" are statements about a log. The profile is a
datatype: the JSON file read is not modelled. A project's `description`,
`techStack` and `features` and each skills value are dereferenced without a
check. `Validate` models the document where these may be missing. There,
one bad value stops the whole run and nothing is written. The clock reading that
becomes `generatedAt` is a parameter.

The modules are:

- `Wrappers`: `Option`, `Result`, and the JavaScript value helpers (template
  rendering of `undefined`, truthiness, `||`, `join`).
- `Chars`: ASCII case, the whitespace class, trimming, and case-insensitive
  matching.
- `Slug`: `slugify`.
- `Clean`: `cleanText`.
- `FirstPerson`: `toFirstPerson`.
- `Profiles`: the profile datatypes.
- `Chunks`: `mkId` and `pushChunk`.
- `Normalize`: the section walk and persistence.
- `Validate`: the document before its projects and skills are known to be
  well formed, and the TypeError that stops the run when they are not.
- `NormalizeProps`: whole-run properties and the worked examples.
- `Hash`: `hashStringToId`.
- `Collection`: error classification and both probes.
- `Indexer`: points, the embedding loop, the upsert, and the keyed store.
- `Generate`: `generateAnswer`.
- `Ask`: `askPortfolio`.

Three behaviours of the code that the model follows and a reader might not
expect:

- The fallback answer uses the typographic apostrophe U+2019
  (`src/rag/ask.js:8`), not an ASCII one.
- Chunk ids are not unique. They depend on type and title only, and two
  interests with one name collide (`NormalizeProps.InterestIdsCollide`).
- The indexer upserts once, after the loop, not once per chunk.

## Model

| member | source | states |
|---|---|---|
| Chars.TrimSpec | src/rag/normalize.js:26 | `trim` yields a trimmed infix of its input; only whitespace is removed from either end; an already trimmed string is unchanged |
| Chars.TestCI | src/rag/initQdrant.js:15-16 | the loop that scans for a case-insensitive occurrence answers true exactly when the literal occurs somewhere in the text, ignoring ASCII case |
| Slug.SlugifyShape | src/rag/normalize.js:23-30 | every slug has only `a-z`, `0-9` and `-`, is at most 80 characters long, never contains `--`, and never starts with `-` |
| Slug.CutLeavesHyphen | src/rag/normalize.js:28-29 | the 80-character cut comes after the edge hyphens are stripped, so a slug can end in `-`: a 79-character word, a separator and another word give that word plus a trailing hyphen |
| Slug.SlugifyTwoWords | src/rag/normalize.js:23-30 | two alphanumeric words joined by any run of separator characters slugify to the lowercased words joined by one hyphen, then cut |
| Slug.SlugifyTwice | src/rag/normalize.js:23-30 | slugifying a slug only drops a trailing hyphen; it is the identity exactly when the slug does not end in a hyphen |
| Clean.CleanText | src/rag/normalize.js:36-37 | an empty or missing input gives the empty string |
| Clean.CleanTextShape | src/rag/normalize.js:36-42 | the result has no carriage return, no run of three newlines, and no leading or trailing whitespace |
| Clean.CleanTextIdempotent | src/rag/normalize.js:36-42 | cleaning a cleaned text changes nothing |
| Clean.CleanTextKeepsSentence | src/rag/normalize.js:36-42 | a single-line opening that starts and ends with non-space characters survives cleaning unchanged at the front of the text |
| FirstPerson.ToFirstPerson | src/rag/normalize.js:45-54 | the result never starts with a lowercase ASCII letter |
| FirstPerson.ToFirstPersonTable | src/rag/normalize.js:45-54 | the seven chained rewrites equal one table of cases on how the cleaned text begins (`i <ws>am`, `i <ws>as`, `i <ws>when`, other `i <ws>`, `as a`, `when i`, anything else) |
| FirstPerson.WhenIBecomesCapitalised | src/rag/normalize.js:52 | a cleaned text starting `when i` in any case becomes `When I` followed by the rest |
| FirstPerson.IWhenIBecomesWhenI | src/rag/normalize.js:47-52 | `i when i…` in any case becomes `When I…` |
| FirstPerson.AsABecomesCapitalised | src/rag/normalize.js:51 | a cleaned text starting `as a` in any case becomes `As a` followed by the rest |
| FirstPerson.UnmatchedOnlyCapitalises | src/rag/normalize.js:46-53 | when no prefix pattern matches, the only change to the cleaned text is uppercasing its first character |
| Chunks.MkIdShape | src/rag/normalize.js:32-34 | a derived id is the prefix, one hyphen and a slug-shaped tail; a missing or empty title gives `<prefix>-item` |
| Chunks.PushChunkRecord | src/rag/normalize.js:56-67 | exactly one record is appended and earlier records are untouched; an explicit id wins, else `mkId(chunkType, title)`; `shouldEmbed` is false only for an explicit `false`; tags and meta default to empty; the text is `toFirstPerson` of the given text |
| Chunks.PushAllAppends | src/rag/normalize.js:146-154 | pushing a list of records with `forEach` appends their built chunks in input order |
| Normalize.Persist | src/rag/normalize.js:303-310 | the persisted `count` equals the number of chunks written, which is the per-section total |
| Validate.PersistDocument | src/rag/normalize.js:274-310 | a document is written exactly when the check of projects and skills passes, with the chunks of the checked profile and their count; otherwise the run ends with the check's error |
| Validate.CheckProjectsFails | src/rag/normalize.js:275-289 | the project walk throws exactly when some project lacks a string `description` or an array `techStack` or `features`; the error names the first such project by position and its first failing value, in the order `description`, `techStack`, `features` |
| Validate.CheckProjectsKeeps | src/rag/normalize.js:275-289 | when no project throws, the projects used are the document's, unchanged |
| Validate.CheckProjectsOfRaw | src/rag/normalize.js:275-289 | well-formed projects never throw and pass through as they are |
| Validate.CheckSkillsFails | src/rag/normalize.js:292-300 | the skills walk throws exactly when some value is not an array, and the error names the category of the first such entry |
| Validate.CheckSkillsKeeps | src/rag/normalize.js:292-300 | when no skills value throws, the entries used are the document's, unchanged |
| Validate.CheckSkillsOfRaw | src/rag/normalize.js:292-300 | array-valued entries never throw and pass through as they are |
| Validate.CheckDocumentFails | src/rag/normalize.js:274-300 | normalisation throws exactly when a project or a skills value is malformed; projects come first, so a skills error means every project was well formed |
| Validate.CheckDocumentSucceeds | src/rag/normalize.js:274-300 | when nothing throws, the sections read the document's own projects and skills unchanged and every other section as it is |
| Validate.CheckDocumentOfProfile | src/rag/normalize.js:274-300 | a document built from a well-formed profile checks back to that profile |
| Validate.NormalizeDocumentOfProfile | src/rag/normalize.js:274-313 | such a document normalises to that profile's chunks |
| Normalize.NormalizeCount | src/rag/normalize.js:72-300 | the run emits exactly the per-section total: one chunk each for meta, audit, social, career and each platform stat when their source exists; identity and contact always; one per bio key, interest, education entry, award, experience entry, project and skill category |
| Normalize.NormalizeTypeCount | src/rag/normalize.js:76-300 | the chunks of each type number exactly what that type's section contributes, so administrative chunks appear only when their source fields exist |
| Normalize.NormalizeByType | src/rag/normalize.js:72-300 | the chunks of each type are that section's records, built in input order |
| Normalize.StripNamePrefix | src/rag/normalize.js:276-279 | the description changes only when it starts with the project name (case-insensitive), and then by at least the name and `is` with its whitespace |
| NormalizeProps.NormalizeChunksDerived | src/rag/normalize.js:56-300 | every emitted chunk's id is `<chunkType>-<slug(title or "item")>`; a chunk is embeddable exactly when it is not a meta, audit or social chunk |
| NormalizeProps.SameTitleSameId | src/rag/normalize.js:58 | two chunks of one type with one title have the same id: nothing makes ids unique |
| NormalizeProps.InterestIdsCollide | src/rag/normalize.js:170-177 | two interests with the same name yield two interest chunks with the same id |
| NormalizeProps.InterestChunks | src/rag/normalize.js:170-178 | the interest chunks are exactly one built record per interest, in input order |
| NormalizeProps.StripNamePrefixMatch | src/rag/normalize.js:276-279 | when the description starts with the name, whitespace, `is`, whitespace (case-insensitive), exactly that prefix, with greedy whitespace runs, is removed |
| NormalizeProps.StripNamePrefixOnlyOnMatch | src/rag/normalize.js:276-279 | conversely, a description that changed started with such a prefix, and the result is what follows it |
| NormalizeProps.FirstPersonKeepsSentence | src/rag/normalize.js:45-54 | an opening of the form `I <word>…` that no rewrite touches survives `toFirstPerson` unchanged at the front of the text |
| NormalizeProps.IdentityExample | src/rag/normalize.js:105-111 | for any single-word alphanumeric name and any single-line title there is exactly one identity chunk; its title is `<name> — Overview`, its id is `identity-<lowercase name>-overview`, and its text starts `I am <name>, a <title>.` (for example `Asha` and `Backend Engineer`) |
| NormalizeProps.StripNameIs | src/rag/normalize.js:276-279 | `<name> is <rest>` loses exactly its `<name> is ` prefix |
| NormalizeProps.ProjectExample | src/rag/normalize.js:275-289 | a project whose description is `<name> is <rest>` gives a chunk whose text starts `I built <name>, <rest>.` (for example `ChatApp` / `ChatApp is a real-time messaging tool`) |
| Hash.Fold | src/rag/embed.js:24-29 | after every step the hash is a signed 32-bit integer |
| Hash.HashId | src/rag/embed.js:23-31 | the id lies in [0, 2^31], and the empty string maps to 0 |
| Hash.StepIsWrappedPoly | src/rag/embed.js:27-28 | one loop step, with the wrap of `<< 5` and of `& hash`, is the 32-bit wrap of `31 * hash + code` |
| Hash.FoldIsWrappedPoly | src/rag/embed.js:24-29 | wrapping after every step equals wrapping the unbounded polynomial hash once at the end |
| Hash.HashIdOfSmall | src/rag/embed.js:23-31 | while the polynomial stays below 2^31 the id is the plain polynomial hash |
| Hash.Utf16OfBmp | src/rag/embed.js:26 | a string of Basic Multilingual Plane characters hashes over one code unit per character, each equal to the character |
| Hash.PointIdCollides | src/rag/embed.js:71 | different chunk ids can share a point id: `an` and `c0` both map to 3117 |
| Hash.HashStringToId | src/rag/embed.js:23-31 | the imperative loop computes `Math.abs` of the folded hash |
| Collection.ErrorMessage | src/rag/initQdrant.js:14 | the message is `data.status.error` when non-empty, else `message` when non-empty, else empty; it is non-empty exactly when one of them is |
| Collection.Classify | src/rag/initQdrant.js:15-16 | not-found is status 404 or a case-insensitive "Not found" in the message; already-exists is status 409 or "Already exists" |
| Collection.IndexerDecision | src/rag/embed.js:40-55 | with no error the indexer proceeds; it creates exactly on not-found and rethrows exactly on neither class |
| Collection.EnsureDecision | src/rag/initQdrant.js:13-34 | with no error it proceeds; it creates exactly on not-found without already-exists and rethrows exactly on neither class |
| Collection.BothWays | src/rag/initQdrant.js:15-21 | an error can be both not-found and already-exists (a 404 whose message says it already exists) |
| Collection.EnsureCollectionEffect | src/rag/initQdrant.js:9-36 | a successful probe never creates; an error creates once, with 3072 dimensions and cosine distance, exactly when it is not-found and not already-exists; already-exists returns; anything else is rethrown; after a create, a failing `createCollection` propagates its own error and a successful one returns |
| Collection.IndexerProbeEffect | src/rag/embed.js:38-56 | in the indexer's probe a not-found error creates once with 3072 dimensions and cosine distance, even if it also reads as already-exists; already-exists alone carries on; any other error is rethrown; after a create, a failing `createCollection` propagates its own error and a successful one proceeds |
| Indexer.PayloadRoundTrip | src/rag/embed.js:73-81 | the payload copies the chunk's id, type, source, title, tags, text and meta and nothing else: the chunk is recovered from it and its embedding flag |
| Indexer.PointFor | src/rag/embed.js:70-82 | a point's id is the hash of its chunk id, its vector is the embedding, and its payload is the chunk's |
| Indexer.SameChunkIdSamePointId | src/rag/embed.js:71 | equal chunk ids give equal point ids, so a re-run overwrites rather than duplicates |
| Indexer.Embeddable | src/rag/embed.js:62-63 | the loop keeps only chunks with `shouldEmbed`, and no more than it read |
| Indexer.EmbeddableKeeps | src/rag/embed.js:62-63 | every chunk marked for embedding is kept |
| Indexer.WalkAllEmbedded | src/rag/embed.js:60-83 | when every embedding succeeds there is one point per embeddable chunk, in order, built from that chunk and its embedding, and exactly the embeddable chunks' texts were sent |
| Indexer.WalkFails | src/rag/embed.js:62-83 | the loop ends in an error exactly when some embeddable chunk's embedding fails |
| Indexer.CollectPoints | src/rag/embed.js:60-83 | the imperative loop, which skips, awaits and pushes, stops at the first failure and otherwise yields one point per embeddable chunk |
| Indexer.EmbedLogRequests | src/rag/embed.js:65-68 | the embedding requests are one per embedded text, in order, each naming the model `text-embedding-3-large` and that text as input |
| Indexer.EmbedPortfolioUpserts | src/rag/embed.js:38-87 | there is exactly one upsert, the last request, to `portfolio_chunks`, exactly when the probe and every embedding succeed, and none otherwise; it carries one point per embeddable chunk in order; the reported count is their number |
| Indexer.UpsertAllKeys | src/rag/embed.js:85-87 | after an upsert the stored ids are the old ids and the points' ids |
| Indexer.UpsertAllIdempotent | src/rag/embed.js:85-87 | upserting the same points twice leaves the store as upserting them once |
| Generate.Dec | src/rag/generate.js:16 | a position is rendered as a non-empty string of decimal digits with no leading zero |
| Generate.DecRoundTrip | src/rag/generate.js:16 | reading a rendered number back gives the number, so labels name positions unambiguously |
| Generate.EntriesAt | src/rag/generate.js:15-16 | entry `i` is `(` + (i + 1) + `) ` + the text of context `i` |
| Generate.ContextTextEmpty | src/rag/generate.js:15-17 | no contexts give an empty context string |
| Generate.ContextTextOne | src/rag/generate.js:15-17 | one context gives `(1) ` followed by its text |
| Generate.ContextTextOneMissing | src/rag/generate.js:15-17 | a null text is printed as `null` and a missing one as `undefined` |
| Generate.ContextTextAppend | src/rag/generate.js:15-17 | one more context appends a blank line and its entry, numbered by its position |
| Generate.ContextTextIgnoresTitles | src/rag/generate.js:15-17 | the context string depends on the texts only, never the titles |
| Generate.QueryRoundTrip | src/rag/generate.js:28-34 | the question is read back whole from the user message, between `Question:` and the final newline |
| Generate.BuildRequest | src/rag/generate.js:19-38 | the request asks for `gpt-4o` at temperature 0.3 with two messages: the system prompt first, then a user message that carries the context string and the question |
| Generate.GenerateAnswer | src/rag/generate.js:19-40 | the first choice's content is returned as is; a provider error propagates unchanged; a response without choices fails |
| Generate.GenerateIgnoresTitles | src/rag/generate.js:15-40 | the request and the answer do not depend on the contexts' titles |
| Ask.AskPortfolioFlow | src/rag/ask.js:4-12 | retrieval runs first, exactly once, with the query and 5 (no later log entry is a retrieval, and the log has two calls after a non-empty retrieval and one otherwise); an empty result gives exactly the fallback text and no generation; a non-empty one gives exactly one generation with the same query and contexts, whose answer or error is passed on unchanged; a retrieval error ends the call |
| Ask.GenerationIffRetrieved | src/rag/ask.js:5-11 | after a successful retrieval the generator runs at most once, and exactly when something was retrieved; the fallback reply (as a tag) is given exactly on an empty retrieval |
| Ask.EmptyRetrievalAnswer | src/rag/ask.js:7-9 | an empty retrieval returns the string `That isn’t part of my portfolio yet.` to the caller, without a generation |
| Ask.FallbackTextMayBeGenerated | src/rag/ask.js:7-11 | a generated answer can be that same sentence, so the returned string alone does not tell whether the generator ran |
| Ask.AskWithGenerateAnswer | src/rag/ask.js:11 | wired to `generateAnswer`, a non-empty retrieval makes one request built from the query and contexts, and returns its first choice's content or its error |

## Left out

- File I/O and process control are not modelled. This covers reading and
  parsing `portfolio.latest.json` and `normalized.json`, `process.exit`,
  and writing the output. The normaliser starts from a profile value, and
  the indexer starts from a chunk list.
- The network clients are parameters. Retrieval (`src/rag/retrieve.js`) is
  an uninterpreted function, so its limit and its score ordering are not
  modelled. `src/rag/query.js`, the HTTP routes, middleware and config are
  not part of this model.
- Console logging is not modelled: it has no effect on results. The one
  figure the indexer logs, the number of points stored, is the count in
  `Indexer.Report.Embedded`.
- Indexer.UpsertAll: when two points of one batch share an id, the later
  one wins. That is an assumption about the vector store, which is not part
  of this model, and ids do collide (`NormalizeProps.InterestIdsCollide`,
  `Hash.PointIdCollides`). `Indexer.UpsertAllKeys` and
  `Indexer.UpsertAllIdempotent` do not depend on it.
- Embedding vectors are an opaque type parameter. The float `temperature`
  is the real 0.3.
- Case mapping and whitespace are ASCII-only. JavaScript's `toLowerCase`,
  `toUpperCase`, `trim`, `\s` and `\w` cover more of Unicode.
- `Object.entries` order for `bio`, `skills`, links and social links is
  taken as given: these are sequences of pairs in the profile datatype.
- Normalize.StripNamePrefix treats the project name as literal text. The
  source builds a regular expression from it without escaping, so a name
  containing regular-expression metacharacters behaves differently there.
- `SYSTEM_PROMPT` comes from `systemPrompt.js`, which is not part of this
  model. It is a parameter.
- The status of a thrown error is an optional integer. A status given as a
  string is not modelled.
- A null `message.content` is returned as `None`, not rendered. A context
  text may be missing, null or a string (`Generate.TextValue`). A number or
  object as context text is not modelled.
- Wrappers.Show: a profile `Field` is missing or text, so a JSON `null` in
  the profile is not modelled. The templates would print it as `null` and
  `cleanText` would turn it into an empty string.
- Wrappers.Truthy: numbers and booleans in the profile are held as their
  printed text, which is truthy when non-empty. JavaScript's falsy `0` and
  `false` are not modelled. So `cleanText(0)` gives `""` at
  `src/rag/normalize.js:37`, and `edu.cgpa || edu.percentage` picks the
  percentage when `cgpa` is `0`, but the model keeps `"0"` in both places.
- Validate.CheckProjectsFails: a value of the wrong type counts as missing,
  which is where `.replace` or `.join` throws. A `description` that is an
  array, or a `techStack` that is a string, is not told apart from one
  that is missing. Values further inside the profile, such as a non-array
  `interests`, are taken to have their documented types.
- Indexer.Walk: the embeddings provider is a function of the text. A
  transient failure, where the same text fails once and succeeds later, or
  an answer that differs between calls, cannot be expressed.
- `generateAnswer` throwing a TypeError when `choices` is empty is modelled
  as the `NoChoice` error, not as a JavaScript exception object.
- Concurrency is not modelled: every `await` is taken in program order.
- NormalizeProps.IdentityExample: stated for names whose lowercase form is
  all `a-z0-9` and at most 71 characters long. Other names slugify
  differently.
- NormalizeProps.ProjectExample: states the text's opening sentence for
  descriptions of the exact form `<name> is <rest>`, with single spaces.
  Other whitespace runs are covered by NormalizeProps.StripNamePrefixMatch.
