/** `askPortfolio` (src/rag/ask.js): retrieve the five best contexts for the
    query; with none, answer with the fixed fallback; otherwise hand query
    and contexts to the generator and return its answer. Retrieval and
    generation are parameters; neither is caught, so their errors end the
    call. */
module Ask {
  import opened Wrappers
  import opened Generate

  /** How many contexts are asked for. */
  const TopK: nat := 5

  /** The answer when nothing relevant is retrieved; the apostrophe is
      U+2019. */
  const FallbackText: string := "That isn\U{2019}t part of my portfolio yet."

  /** A call `askPortfolio` makes, in order. */
  datatype AskCall = Retrieve(query: string, topK: nat) | Generate(query: string, contexts: seq<Context>)

  /** The two ways a call that does not throw can end. */
  datatype Reply<A> = Fallback(text: string) | Generated(answer: A)

  function Generations(log: seq<AskCall>): nat {
    if |log| == 0 then 0
    else Generations(log[..|log| - 1]) + (if log[|log| - 1].Generate? then 1 else 0)
  }

  /** `askPortfolio(query)`: the calls made and the result. */
  function AskPortfolio<A, E>(
    query: string,
    retrieve: (string, nat) -> Result<seq<Context>, E>,
    generate: (string, seq<Context>) -> Result<A, E>)
    : (r: (seq<AskCall>, Result<Reply<A>, E>))
  {
    match retrieve(query, TopK)
    case Failure(e) => ([Retrieve(query, TopK)], Failure(e))
    case Success(contexts) =>
      if |contexts| == 0 then ([Retrieve(query, TopK)], Success(Fallback(FallbackText)))
      else
        var log := [Retrieve(query, TopK), Generate(query, contexts)];
        match generate(query, contexts)
        case Failure(e) => (log, Failure(e))
        case Success(a) => (log, Success(Generated(a)))
  }

  lemma GenerationsOfOne(query: string)
    ensures Generations([Retrieve(query, TopK)]) == 0
  {
    assert [Retrieve(query, TopK)][..0] == [];
  }

  lemma GenerationsOfTwo(query: string, contexts: seq<Context>)
    ensures Generations([Retrieve(query, TopK), Generate(query, contexts)]) == 1
  {
    var log := [Retrieve(query, TopK), Generate(query, contexts)];
    assert log[..1] == [Retrieve(query, TopK)];
    GenerationsOfOne(query);
  }

  /** Retrieval comes first, exactly once, with the query and five: no other
      entry of the log is a retrieval, and the log holds one or two calls. An
      empty result gives exactly the fallback text and no generation; a
      non-empty one gives exactly one generation, with the same query and
      contexts, whose answer or error is passed on unchanged; a retrieval
      error ends the call before any generation. */
  lemma AskPortfolioFlow<A, E>(
    query: string,
    retrieve: (string, nat) -> Result<seq<Context>, E>,
    generate: (string, seq<Context>) -> Result<A, E>)
    ensures var (log, result) := AskPortfolio(query, retrieve, generate);
      var retrieved := retrieve(query, 5);
      && |log| >= 1 && log[0] == Retrieve(query, 5)
      && (forall i :: 0 < i < |log| ==> !log[i].Retrieve?)
      && |log| == (if retrieved.Success? && |retrieved.value| > 0 then 2 else 1)
      && (retrieved.Failure? ==> Generations(log) == 0 && result == Failure(retrieved.error))
      && (retrieved.Success? && |retrieved.value| == 0 ==>
            Generations(log) == 0 && result == Success(Fallback("That isn\U{2019}t part of my portfolio yet.")))
      && (retrieved.Success? && |retrieved.value| > 0 ==>
            && Generations(log) == 1 && log[|log| - 1] == Generate(query, retrieved.value)
            && (generate(query, retrieved.value).Success? ==>
                  result == Success(Generated(generate(query, retrieved.value).value)))
            && (generate(query, retrieved.value).Failure? ==>
                  result == Failure(generate(query, retrieved.value).error)))
  {
    GenerationsOfOne(query);
    if retrieve(query, TopK).Success? {
      GenerationsOfTwo(query, retrieve(query, TopK).value);
    }
  }

  /** The string a caller of `askPortfolio` receives: the fallback text, or
      the generator's answer as it is. */
  function Answer(reply: Reply<string>): string {
    match reply
    case Fallback(t) => t
    case Generated(a) => a
  }

  /** After a successful retrieval the generator runs at most once, and it
      runs exactly when something was retrieved. The `Fallback` tag marks
      the empty retrieval and nothing else; it is the model's tag, not a
      property of the returned string (see `FallbackTextMayBeGenerated`). */
  lemma GenerationIffRetrieved<A, E>(
    query: string,
    retrieve: (string, nat) -> Result<seq<Context>, E>,
    generate: (string, seq<Context>) -> Result<A, E>)
    requires retrieve(query, TopK).Success?
    ensures var (log, result) := AskPortfolio(query, retrieve, generate);
      var contexts := retrieve(query, TopK).value;
      && Generations(log) <= 1
      && (|contexts| > 0 <==> Generations(log) == 1)
      && (|contexts| == 0 <==> result.Success? && result.value.Fallback?)
  {
    GenerationsOfOne(query);
    GenerationsOfTwo(query, retrieve(query, TopK).value);
  }

  /** An empty retrieval gives the caller the fallback string, without a
      generation. */
  lemma EmptyRetrievalAnswer<E>(
    query: string,
    retrieve: (string, nat) -> Result<seq<Context>, E>,
    generate: (string, seq<Context>) -> Result<string, E>)
    requires retrieve(query, TopK).Success? && |retrieve(query, TopK).value| == 0
    ensures var (log, result) := AskPortfolio(query, retrieve, generate);
      && Generations(log) == 0
      && result.Success?
      && Answer(result.value) == "That isn\U{2019}t part of my portfolio yet."
  {
    GenerationsOfOne(query);
  }

  /** The converse does not hold for the string: a generator that answers
      with the fallback sentence gives the caller the same string after a
      generation, so the string alone does not tell whether one ran. */
  lemma FallbackTextMayBeGenerated<E>(
    query: string,
    retrieve: (string, nat) -> Result<seq<Context>, E>,
    generate: (string, seq<Context>) -> Result<string, E>)
    requires retrieve(query, TopK).Success? && |retrieve(query, TopK).value| > 0
    requires generate(query, retrieve(query, TopK).value) == Success(FallbackText)
    ensures var (log, result) := AskPortfolio(query, retrieve, generate);
      && Generations(log) == 1
      && result.Success?
      && Answer(result.value) == FallbackText
      && result.value.Generated?
  {
    GenerationsOfTwo(query, retrieve(query, TopK).value);
  }

  /** `askPortfolio` wired to `generateAnswer`: the chat provider is not
      asked anything on the fallback path, and otherwise the reply is the
      first choice's content of the one request built from the query and
      the retrieved contexts. */
  lemma AskWithGenerateAnswer<E>(
    systemPrompt: string, query: string,
    retrieve: (string, nat) -> Result<seq<Context>, GenerateError<E>>,
    chat: ChatRequest -> Result<seq<Choice>, E>)
    requires retrieve(query, TopK).Success? && |retrieve(query, TopK).value| > 0
    ensures var generate := (q: string, cs: seq<Context>) => GenerateAnswer(systemPrompt, q, cs, chat);
      var (log, result) := AskPortfolio(query, retrieve, generate);
      var response := chat(BuildRequest(systemPrompt, query, retrieve(query, TopK).value));
      && Generations(log) == 1
      && (response.Success? && |response.value| > 0 ==>
            result == Success(Generated(response.value[0].content)))
      && (response.Failure? ==> result == Failure(Provider(response.error)))
  {
    GenerationsOfTwo(query, retrieve(query, TopK).value);
  }
}
