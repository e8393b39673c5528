/** The collection probe: `ensureCollection` (src/rag/initQdrant.js) and the
    probe at the top of `embedPortfolio` (src/rag/embed.js). Both call
    `getCollection`, classify a thrown error as not-found and/or
    already-exists, and then create the collection, carry on, or rethrow. The
    two differ only in which classification they look at first. */
module Collection {
  import opened Wrappers
  import opened Chars

  const CollectionName: string := "portfolio_chunks"

  /** The embedding width of `text-embedding-3-large`. */
  const VectorSize: nat := 3072

  datatype Distance = Cosine

  /** What the code reads from a thrown error: `err.status`,
      `err.data.status.error` and `err.message`. */
  datatype ProviderError = ProviderError(status: Option<int>, dataError: Field, message: Field)

  /** `err?.data?.status?.error || err?.message || ""`. */
  function ErrorMessage(e: ProviderError): (msg: string)
    ensures Truthy(e.dataError) ==> msg == e.dataError.value
    ensures msg != "" <==> Truthy(e.dataError) || Truthy(e.message)
    ensures msg != "" ==> Some(msg) == e.dataError || Some(msg) == e.message
  {
    OrStr(e.dataError, OrStr(e.message, ""))
  }

  /** `err?.status === 404 || /Not found/i.test(msg)`. */
  predicate IsNotFound(e: ProviderError) {
    e.status == Some(404) || ContainsCI(ErrorMessage(e), "Not found")
  }

  /** `err?.status === 409 || /Already exists/i.test(msg)`. */
  predicate IsAlreadyExists(e: ProviderError) {
    e.status == Some(409) || ContainsCI(ErrorMessage(e), "Already exists")
  }

  /** The classification as the code computes it, one regular-expression test
      per class. */
  method Classify(e: ProviderError) returns (notFound: bool, alreadyExists: bool)
    ensures notFound <==> IsNotFound(e)
    ensures alreadyExists <==> IsAlreadyExists(e)
  {
    var msg := ErrorMessage(e);
    var nf := TestCI(msg, "Not found");
    var ae := TestCI(msg, "Already exists");
    notFound := e.status == Some(404) || nf;
    alreadyExists := e.status == Some(409) || ae;
  }

  /** What a probe leads to. */
  datatype Decision = Proceed | Create | Rethrow

  /** The indexer's branch (src/rag/embed.js): not-found first. `probe` is
      the error `getCollection` threw, if any. */
  function IndexerDecision(probe: Option<ProviderError>): (d: Decision)
    ensures probe.None? ==> d == Proceed
    ensures probe.Some? ==> (d == Create <==> IsNotFound(probe.value))
    ensures probe.Some? ==> (d == Rethrow <==> !IsNotFound(probe.value) && !IsAlreadyExists(probe.value))
  {
    match probe
    case None => Proceed
    case Some(e) =>
      if IsNotFound(e) then Create
      else if !IsAlreadyExists(e) then Rethrow
      else Proceed
  }

  /** `ensureCollection`'s branch (src/rag/initQdrant.js): already-exists
      first. */
  function EnsureDecision(probe: Option<ProviderError>): (d: Decision)
    ensures probe.None? ==> d == Proceed
    ensures probe.Some? ==> (d == Create <==> IsNotFound(probe.value) && !IsAlreadyExists(probe.value))
    ensures probe.Some? ==> (d == Rethrow <==> !IsNotFound(probe.value) && !IsAlreadyExists(probe.value))
  {
    match probe
    case None => Proceed
    case Some(e) =>
      if IsAlreadyExists(e) then Proceed
      else if IsNotFound(e) then Create
      else Rethrow
  }

  /** The two decisions agree on every error that is not classified both
      ways. */
  lemma DecisionsAgree(probe: Option<ProviderError>)
    requires probe.Some? ==> !(IsNotFound(probe.value) && IsAlreadyExists(probe.value))
    ensures IndexerDecision(probe) == EnsureDecision(probe)
  {
  }

  /** On an error classified both ways the precedence shows: the indexer
      creates the collection, `ensureCollection` leaves it alone. */
  lemma PrecedenceDiffers(e: ProviderError)
    requires IsNotFound(e) && IsAlreadyExists(e)
    ensures IndexerDecision(Some(e)) == Create
    ensures EnsureDecision(Some(e)) == Proceed
  {
  }

  /** Such errors exist: a 404 whose message says the collection already
      exists. */
  lemma BothWays()
    ensures var e := ProviderError(Some(404), Some("already exists"), None);
      IsNotFound(e) && IsAlreadyExists(e)
  {
    var e := ProviderError(Some(404), Some("already exists"), None);
    assert ErrorMessage(e) == "already exists";
    assert MatchAtCI("already exists", "Already exists", 0);
  }

  /** A request to the vector store. */
  datatype Call =
    | GetCollection(name: string)
    | CreateCollection(name: string, size: nat, distance: Distance)

  datatype Outcome = Ready | Threw(err: ProviderError)

  /** A probe followed by the decision's effect. `create` is the error
      `createCollection` throws, if any; an error from it propagates. */
  function Apply(name: string, decision: Decision, probe: Option<ProviderError>, create: Option<ProviderError>)
    : (r: (seq<Call>, Outcome))
    requires decision == Rethrow ==> probe.Some?
  {
    match decision
    case Proceed => ([GetCollection(name)], Ready)
    case Rethrow => ([GetCollection(name)], Threw(probe.value))
    case Create =>
      ([GetCollection(name), CreateCollection(name, VectorSize, Cosine)],
       if create.Some? then Threw(create.value) else Ready)
  }

  /** The number of `createCollection` calls in a call log. */
  function Creates(calls: seq<Call>): nat {
    if |calls| == 0 then 0
    else (if calls[0].CreateCollection? then 1 else 0) + Creates(calls[1..])
  }

  /** `ensureCollection(name)`. */
  function EnsureCollection(name: string, probe: Option<ProviderError>, create: Option<ProviderError>)
    : (r: (seq<Call>, Outcome))
    ensures |r.0| >= 1 && r.0[0] == GetCollection(name)
    ensures probe.None? ==> r == ([GetCollection(name)], Ready)
  {
    Apply(name, EnsureDecision(probe), probe, create)
  }

  /** The probe at the top of `embedPortfolio`, on the fixed collection. */
  function IndexerProbe(probe: Option<ProviderError>, create: Option<ProviderError>): (r: (seq<Call>, Outcome))
    ensures |r.0| >= 1 && r.0[0] == GetCollection(CollectionName)
    ensures probe.None? ==> r == ([GetCollection(CollectionName)], Ready)
  {
    Apply(CollectionName, IndexerDecision(probe), probe, create)
  }

  /** The effect of a decision: one probe, then exactly one create of the
      right shape when the decision is to create and none otherwise; after
      a create the outcome is the create's own error, or ready when it
      succeeds; a rethrow ends with the probe's own error. */
  lemma ApplyEffect(name: string, decision: Decision, probe: Option<ProviderError>, create: Option<ProviderError>)
    requires decision == Rethrow ==> probe.Some?
    ensures var (calls, out) := Apply(name, decision, probe, create);
      && calls[0] == GetCollection(name)
      && Creates(calls) == (if decision == Create then 1 else 0)
      && (decision == Create ==> calls[1] == CreateCollection(name, 3072, Cosine) && out == (if create.Some? then Threw(create.value) else Ready))
      && (decision == Proceed ==> out == Ready)
      && (decision == Rethrow ==> out == Threw(probe.value))
  {
    CreatesOfProbe(name);
    CreatesOfProbeAndCreate(name);
  }

  lemma CreatesOfProbe(name: string)
    ensures Creates([GetCollection(name)]) == 0
  {
    assert [GetCollection(name)][1..] == [];
  }

  lemma CreatesOfProbeAndCreate(name: string)
    ensures Creates([GetCollection(name), CreateCollection(name, VectorSize, Cosine)]) == 1
  {
    var calls := [GetCollection(name), CreateCollection(name, VectorSize, Cosine)];
    var tail := [CreateCollection(name, VectorSize, Cosine)];
    assert calls[1..] == tail;
    assert tail[1..] == [];
    assert Creates(tail) == 1;
  }

  /** `ensureCollection`: a successful probe never creates; an error is
      rethrown exactly when it is neither not-found nor already-exists; the
      collection is created, once, with 3072 dimensions and cosine distance,
      exactly when the error is not-found and not already-exists, and then
      a failing create propagates its own error and a successful one
      returns. */
  lemma EnsureCollectionEffect(name: string, probe: Option<ProviderError>, create: Option<ProviderError>)
    ensures var (calls, out) := EnsureCollection(name, probe, create);
      && (probe.None? ==> Creates(calls) == 0 && out == Ready)
      && (probe.Some? ==> var e := probe.value;
        && (Creates(calls) == 1 <==> IsNotFound(e) && !IsAlreadyExists(e))
        && (Creates(calls) == 0 <==> !(IsNotFound(e) && !IsAlreadyExists(e)))
        && (IsAlreadyExists(e) ==> out == Ready)
        && (!IsNotFound(e) && !IsAlreadyExists(e) ==> out == Threw(e)))
      && (Creates(calls) == 1 ==> calls[1] == CreateCollection(name, 3072, Cosine))
      && (Creates(calls) == 1 ==> out == (if create.Some? then Threw(create.value) else Ready))
  {
    ApplyEffect(name, EnsureDecision(probe), probe, create);
  }

  /** The indexer's probe: not-found creates even if the error also reads as
      already-exists; already-exists alone carries on; anything else is
      rethrown. After a create, a failing create propagates its own error
      and a successful one carries on. */
  lemma IndexerProbeEffect(probe: Option<ProviderError>, create: Option<ProviderError>)
    ensures var (calls, out) := IndexerProbe(probe, create);
      && (probe.None? ==> Creates(calls) == 0 && out == Ready)
      && (probe.Some? ==> var e := probe.value;
        && (Creates(calls) == 1 <==> IsNotFound(e))
        && (Creates(calls) == 0 <==> !IsNotFound(e))
        && (!IsNotFound(e) && IsAlreadyExists(e) ==> out == Ready)
        && (!IsNotFound(e) && !IsAlreadyExists(e) ==> out == Threw(e)))
      && (Creates(calls) == 1 ==> calls[1] == CreateCollection(CollectionName, 3072, Cosine))
      && (Creates(calls) == 1 ==> out == (if create.Some? then Threw(create.value) else Ready))
  {
    ApplyEffect(CollectionName, IndexerDecision(probe), probe, create);
  }
}
