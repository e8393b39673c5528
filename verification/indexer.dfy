/** `embedPortfolio` (src/rag/embed.js): probe the collection, embed every
    chunk marked `shouldEmbed`, turn each into a point keyed by the hash of
    its id, and store all points with one upsert. The embeddings provider and
    the vector store are parameters: `embed` answers an embedding request or
    throws, and the errors `createCollection` and `upsert` throw are given. */
module Indexer {
  import opened Wrappers
  import opened Chunks
  import opened Hash
  import opened Collection

  /** What a point carries besides its vector: the chunk's fields, under the
      names the source gives them. */
  datatype Payload = Payload(
    chunkId: string,
    chunkType: ChunkType,
    source: string,
    title: Field,
    tags: seq<Field>,
    text: string,
    meta: Meta)

  /** A point; the vector is whatever the embeddings provider returned. */
  datatype Point<V> = Point(id: nat, vector: V, payload: Payload)

  function PayloadOf(c: Chunk): Payload {
    Payload(c.id, c.chunkType, c.source, c.title, c.tags, c.text, c.meta)
  }

  /** The chunk a payload was copied from, given the one field it leaves out. */
  function ChunkOf(p: Payload, shouldEmbed: bool): Chunk {
    Chunk(p.chunkId, p.chunkType, p.source, p.title, p.tags, p.text, p.meta, shouldEmbed)
  }

  /** The payload copies every field of the chunk except the embedding flag,
      and nothing else: the chunk can be read back from it. */
  lemma PayloadRoundTrip(c: Chunk)
    ensures ChunkOf(PayloadOf(c), c.shouldEmbed) == c
    ensures PayloadOf(ChunkOf(PayloadOf(c), true)) == PayloadOf(c)
  {
  }

  /** The point for `chunk`: keyed by the hash of the chunk id. */
  function PointFor<V>(c: Chunk, vector: V): (p: Point<V>)
    ensures p.id == PointId(c.id) && p.id <= TwoTo31
    ensures ChunkOf(p.payload, c.shouldEmbed) == c
    ensures p.vector == vector
  {
    Point(PointId(c.id), vector, PayloadOf(c))
  }

  /** Chunks that share an id share a point id, so storing the points of a
      re-run overwrites the earlier points instead of adding to them. */
  lemma SameChunkIdSamePointId<V>(a: Chunk, b: Chunk, va: V, vb: V)
    requires a.id == b.id
    ensures PointFor(a, va).id == PointFor(b, vb).id
  {
  }

  /** The chunks `if (!chunk.shouldEmbed) continue` lets through, in order. */
  function Embeddable(chunks: seq<Chunk>): (r: seq<Chunk>)
    ensures |r| <= |chunks|
    ensures forall k :: 0 <= k < |r| ==> r[k].shouldEmbed
  {
    if |chunks| == 0 then []
    else
      var init := Embeddable(chunks[..|chunks| - 1]);
      if chunks[|chunks| - 1].shouldEmbed then init + [chunks[|chunks| - 1]] else init
  }

  /** Every chunk marked for embedding is kept. */
  lemma {:induction false} EmbeddableKeeps(chunks: seq<Chunk>, i: nat)
    requires i < |chunks| && chunks[i].shouldEmbed
    ensures chunks[i] in Embeddable(chunks)
    decreases |chunks|
  {
    if i < |chunks| - 1 {
      assert chunks[..|chunks| - 1][i] == chunks[i];
      EmbeddableKeeps(chunks[..|chunks| - 1], i);
    }
  }

  /** Only chunks of the input are kept. */
  lemma {:induction false} EmbeddableFrom(chunks: seq<Chunk>, c: Chunk)
    requires c in Embeddable(chunks)
    ensures c in chunks
    decreases |chunks|
  {
    if |chunks| > 0 {
      var init := chunks[..|chunks| - 1];
      if c in Embeddable(init) {
        EmbeddableFrom(init, c);
        assert c in init;
      }
    }
  }

  /** What the loop has done after reading some chunks: the points built,
      the texts sent for embedding, and the error that stopped it, if any. */
  datatype Progress<V> = Progress(points: seq<Point<V>>, embedded: seq<string>, failed: Option<ProviderError>)

  /** One pass of the loop body. */
  function Visit<V>(p: Progress<V>, c: Chunk, embed: string -> Result<V, ProviderError>): Progress<V> {
    if p.failed.Some? || !c.shouldEmbed then p
    else match embed(c.text)
      case Failure(e) => Progress(p.points, p.embedded + [c.text], Some(e))
      case Success(v) => Progress(p.points + [PointFor(c, v)], p.embedded + [c.text], None)
  }

  /** The loop over `raw.chunks`, up to the first embedding error. */
  function Walk<V>(chunks: seq<Chunk>, embed: string -> Result<V, ProviderError>): Progress<V> {
    if |chunks| == 0 then Progress([], [], None)
    else Visit(Walk(chunks[..|chunks| - 1], embed), chunks[|chunks| - 1], embed)
  }

  /** When the provider answers every request, the loop builds one point per
      embeddable chunk, in order, each from that chunk and its embedding, and
      sends exactly the embeddable chunks' texts. */
  predicate AllEmbedded<V>(chunks: seq<Chunk>, embed: string -> Result<V, ProviderError>) {
    forall k :: 0 <= k < |Embeddable(chunks)| ==> embed(Embeddable(chunks)[k].text).Success?
  }

  ghost predicate PointsMatch<V>(points: seq<Point<V>>, es: seq<Chunk>, embed: string -> Result<V, ProviderError>) {
    && |points| == |es|
    && forall k :: 0 <= k < |es| ==>
      embed(es[k].text).Success? && points[k] == PointFor(es[k], embed(es[k].text).value)
  }

  lemma {:induction false} WalkAllEmbedded<V>(chunks: seq<Chunk>, embed: string -> Result<V, ProviderError>)
    requires AllEmbedded(chunks, embed)
    ensures var w := Walk(chunks, embed);
      && w.failed.None?
      && PointsMatch(w.points, Embeddable(chunks), embed)
      && |w.embedded| == |Embeddable(chunks)|
      && forall k :: 0 <= k < |w.embedded| ==> w.embedded[k] == Embeddable(chunks)[k].text
    decreases |chunks|
  {
    if |chunks| > 0 {
      var init := chunks[..|chunks| - 1];
      var c := chunks[|chunks| - 1];
      var es := Embeddable(init);
      assert AllEmbedded(init, embed) by {
        forall k | 0 <= k < |es|
          ensures embed(es[k].text).Success?
        {
          assert Embeddable(chunks)[k] == es[k];
        }
      }
      WalkAllEmbedded(init, embed);
      if c.shouldEmbed {
        assert Embeddable(chunks)[|es|] == c;
      }
    }
  }

  /** The loop stops with an error exactly when some embeddable chunk's
      embedding request fails. */
  lemma {:induction false} WalkFails<V>(chunks: seq<Chunk>, embed: string -> Result<V, ProviderError>)
    ensures Walk(chunks, embed).failed.Some? <==> !AllEmbedded(chunks, embed)
    decreases |chunks|
  {
    if |chunks| > 0 {
      var init := chunks[..|chunks| - 1];
      var c := chunks[|chunks| - 1];
      var es := Embeddable(init);
      WalkFails(init, embed);
      if !AllEmbedded(init, embed) {
        var k :| 0 <= k < |es| && embed(es[k].text).Failure?;
        assert Embeddable(chunks)[k] == es[k];
      } else if c.shouldEmbed {
        assert Embeddable(chunks)[|es|] == c;
        assert AllEmbedded(chunks, embed) <==> embed(c.text).Success? by {
          forall k | 0 <= k < |es|
            ensures Embeddable(chunks)[k] == es[k]
          {
          }
        }
      }
    }
  }

  /** The points the loop builds, as the source builds them: an `if` that
      skips, an `await` that may throw, a `push`. */
  method CollectPoints<V>(chunks: seq<Chunk>, embed: string -> Result<V, ProviderError>)
    returns (points: seq<Point<V>>, embedded: seq<string>, failed: Option<ProviderError>)
    ensures Progress(points, embedded, failed) == Walk(chunks, embed)
    ensures failed.None? <==> AllEmbedded(chunks, embed)
    ensures failed.None? ==> PointsMatch(points, Embeddable(chunks), embed)
  {
    points, embedded, failed := [], [], None;
    var i := 0;
    while i < |chunks|
      invariant 0 <= i <= |chunks|
      invariant Progress(points, embedded, failed) == Walk(chunks[..i], embed)
      invariant failed.Some? ==> Walk(chunks, embed).failed == failed
    {
      assert chunks[..i + 1][..i] == chunks[..i];
      var c := chunks[i];
      if !c.shouldEmbed {
        i := i + 1;
        continue;
      }
      var answer := embed(c.text);
      embedded := embedded + [c.text];
      if answer.Failure? {
        failed := Some(answer.error);
        assert Walk(chunks[..i + 1], embed) == Progress(points, embedded, failed);
        WalkStaysFailed(chunks, embed, i + 1);
        WalkFails(chunks, embed);
        return;
      }
      points := points + [PointFor(c, answer.value)];
      i := i + 1;
    }
    assert chunks[..i] == chunks;
    WalkFails(chunks, embed);
    if failed.None? {
      WalkAllEmbedded(chunks, embed);
    }
  }

  /** Once the loop has failed, reading more chunks changes nothing. */
  lemma {:induction false} WalkStaysFailed<V>(chunks: seq<Chunk>, embed: string -> Result<V, ProviderError>, i: nat)
    requires i <= |chunks| && Walk(chunks[..i], embed).failed.Some?
    ensures Walk(chunks, embed) == Walk(chunks[..i], embed)
    decreases |chunks| - i
  {
    if i < |chunks| {
      assert chunks[..i + 1][..i] == chunks[..i];
      WalkStaysFailed(chunks, embed, i + 1);
    } else {
      assert chunks[..i] == chunks;
    }
  }

  /* ---------- The run ---------- */

  /** The embedding model every `embeddings.create` call names. */
  const EmbeddingModel: string := "text-embedding-3-large"

  /** A request `embedPortfolio` makes, in order. */
  datatype Request<V> =
    | Store(call: Call)
    | Embed(model: string, input: string)
    | Upsert(collection: string, points: seq<Point<V>>)

  /** How `embedPortfolio` ends. It resolves to `undefined`; `count` is the
      number of points it logs as stored after the upsert, and `err` is what
      it throws. */
  datatype Report = Embedded(count: nat) | Failed(err: ProviderError)

  function Upserts<V>(log: seq<Request<V>>): nat {
    if |log| == 0 then 0
    else Upserts(log[..|log| - 1]) + (if log[|log| - 1].Upsert? then 1 else 0)
  }

  function StoreLog<V>(calls: seq<Call>): (r: seq<Request<V>>)
    ensures |r| == |calls| && Upserts(r) == 0
  {
    if |calls| == 0 then [] else StoreLog(calls[..|calls| - 1]) + [Store(calls[|calls| - 1])]
  }

  function EmbedLog<V>(texts: seq<string>): (r: seq<Request<V>>)
    ensures |r| == |texts| && Upserts(r) == 0
  {
    if |texts| == 0 then [] else EmbedLog(texts[..|texts| - 1]) + [Embed(EmbeddingModel, texts[|texts| - 1])]
  }

  /** One embedding request per text, in order, each naming the
      `text-embedding-3-large` model. */
  lemma {:induction false} EmbedLogRequests<V>(texts: seq<string>, i: nat)
    requires i < |texts|
    ensures var r: seq<Request<V>> := EmbedLog(texts);
      r[i].Embed? && r[i].model == "text-embedding-3-large" && r[i].input == texts[i]
    decreases |texts|
  {
    if i < |texts| - 1 {
      EmbedLogRequests<V>(texts[..|texts| - 1], i);
    }
  }

  lemma {:induction false} UpsertsAppend<V>(a: seq<Request<V>>, b: seq<Request<V>>)
    ensures Upserts(a + b) == Upserts(a) + Upserts(b)
    decreases |b|
  {
    if |b| == 0 {
      assert a + b == a;
    } else {
      assert (a + b)[..|a + b| - 1] == a + b[..|b| - 1];
      UpsertsAppend(a, b[..|b| - 1]);
    }
  }

  /** `embedPortfolio()`: the requests made, in order, and how it ends.
      `create` and `upsertError` are what `createCollection` and `upsert`
      throw, if anything. */
  function EmbedPortfolio<V>(
    probe: Option<ProviderError>, create: Option<ProviderError>,
    chunks: seq<Chunk>, embed: string -> Result<V, ProviderError>, upsertError: Option<ProviderError>)
    : (r: (seq<Request<V>>, Report))
  {
    var (calls, ready) := IndexerProbe(probe, create);
    var probeLog: seq<Request<V>> := StoreLog(calls);
    if ready.Threw? then (probeLog, Failed(ready.err))
    else
      var w := Walk(chunks, embed);
      var log := probeLog + EmbedLog(w.embedded);
      if w.failed.Some? then (log, Failed(w.failed.value))
      else (log + [Upsert(CollectionName, w.points)],
            if upsertError.Some? then Failed(upsertError.value) else Embedded(|w.points|))
  }

  /** All points go out in one upsert, as the last request, and only when
      the probe and every embedding succeeded: a failure on the way means no
      upsert at all. The upsert carries one point per embeddable chunk, in
      order, and the reported count is their number. */
  lemma EmbedPortfolioUpserts<V>(
    probe: Option<ProviderError>, create: Option<ProviderError>,
    chunks: seq<Chunk>, embed: string -> Result<V, ProviderError>, upsertError: Option<ProviderError>)
    ensures var (log, report) := EmbedPortfolio(probe, create, chunks, embed, upsertError);
      var ready := IndexerProbe(probe, create).1 == Ready;
      && (Upserts(log) == 1 <==> ready && AllEmbedded(chunks, embed))
      && (Upserts(log) == 0 <==> !(ready && AllEmbedded(chunks, embed)))
      && (Upserts(log) == 1 ==>
        && log[|log| - 1].Upsert? && log[|log| - 1].collection == "portfolio_chunks"
        && PointsMatch(log[|log| - 1].points, Embeddable(chunks), embed)
        && (upsertError.None? ==> report == Embedded(|Embeddable(chunks)|)))
  {
    var (calls, ready) := IndexerProbe(probe, create);
    var probeLog: seq<Request<V>> := StoreLog(calls);
    WalkFails(chunks, embed);
    if ready.Ready? {
      var w := Walk(chunks, embed);
      var log := probeLog + EmbedLog(w.embedded);
      UpsertsAppend(probeLog, EmbedLog(w.embedded));
      if w.failed.None? {
        WalkAllEmbedded(chunks, embed);
        UpsertsAppend(log, [Upsert(CollectionName, w.points)]);
        assert Upserts([Upsert(CollectionName, w.points)]) == 1 by {
          assert [Upsert(CollectionName, w.points)][..0] == [];
        }
      }
    }
  }

  /* ---------- The store the points go into ---------- */

  /** The vector store's contents, by point id. */
  type PointStore<V> = map<nat, Point<V>>

  /** `upsert`: each point replaces whatever had its id, in order. */
  function UpsertAll<V>(st: PointStore<V>, points: seq<Point<V>>): PointStore<V> {
    if |points| == 0 then st
    else UpsertAll(st, points[..|points| - 1])[points[|points| - 1].id := points[|points| - 1]]
  }

  /** An upsert overlays the points on what was there. */
  lemma {:induction false} UpsertAllOverlay<V>(st: PointStore<V>, points: seq<Point<V>>)
    ensures UpsertAll(st, points) == st + UpsertAll(map[], points)
    decreases |points|
  {
    if |points| > 0 {
      UpsertAllOverlay(st, points[..|points| - 1]);
    }
  }

  /** The ids of some points. */
  ghost function Ids<V>(points: seq<Point<V>>): set<nat> {
    set p | p in points :: p.id
  }

  /** The ids stored after an upsert are the old ones and the points' ids. */
  lemma {:induction false} UpsertAllKeys<V>(st: PointStore<V>, points: seq<Point<V>>)
    ensures UpsertAll(st, points).Keys == st.Keys + Ids(points)
    decreases |points|
  {
    if |points| > 0 {
      var init := points[..|points| - 1];
      UpsertAllKeys(st, init);
      assert points == init + [points[|points| - 1]];
      assert Ids(points) == Ids(init) + {points[|points| - 1].id};
    }
  }

  /** Upserting the same points again changes nothing: re-running the
      indexer on unchanged chunks and embeddings leaves the collection as the
      first run left it. */
  lemma UpsertAllIdempotent<V>(st: PointStore<V>, points: seq<Point<V>>)
    ensures UpsertAll(UpsertAll(st, points), points) == UpsertAll(st, points)
  {
    var added := UpsertAll(map[], points);
    UpsertAllOverlay(st, points);
    UpsertAllOverlay(st + added, points);
    assert (st + added) + added == st + added;
  }
}
