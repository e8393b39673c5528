/** `generateAnswer` (src/rag/generate.js): number the retrieved contexts from
    one, join them into one context string, wrap it with the question into a
    two-message chat request, and return the first choice's content. The
    chat provider is a parameter; `SYSTEM_PROMPT` comes from a file outside
    this model and is a parameter too. */
module Generate {
  import opened Wrappers

  /** A payload value as a template literal sees it: missing, JSON null, or
      a string. */
  datatype TextValue = Undefined | Null | Text(s: string)

  /** `${v}`: a missing value prints "undefined", a null one "null". */
  function Render(v: TextValue): string {
    match v
    case Undefined => "undefined"
    case Null => "null"
    case Text(s) => s
  }

  /** A retrieved context as `generateAnswer` reads it. */
  datatype Context = Context(text: TextValue, title: Field)

  /* ---------- Decimal numerals ---------- */

  function Digit(d: nat): (c: char)
    requires d < 10
    ensures '0' <= c <= '9'
  {
    (48 + d) as char
  }

  predicate IsDigits(s: string) {
    forall i :: 0 <= i < |s| ==> '0' <= s[i] <= '9'
  }

  /** `${n}` for a non-negative integer: its decimal numeral. */
  function Dec(n: nat): (s: string)
    ensures |s| >= 1 && IsDigits(s)
    ensures s[0] == '0' ==> n == 0
  {
    if n < 10 then [Digit(n)] else Dec(n / 10) + [Digit(n % 10)]
  }

  /** The number a numeral denotes. */
  function ParseDec(s: string): nat
    requires IsDigits(s)
  {
    if |s| == 0 then 0 else 10 * ParseDec(s[..|s| - 1]) + (s[|s| - 1] as int - 48)
  }

  /** Reading the numeral back gives the number: the labels `(1)`, `(2)`, …
      name the contexts' positions without ambiguity. */
  lemma {:induction false} DecRoundTrip(n: nat)
    ensures ParseDec(Dec(n)) == n
    decreases n
  {
    if n >= 10 {
      DecRoundTrip(n / 10);
      var s := Dec(n);
      assert s[..|s| - 1] == Dec(n / 10);
    }
  }

  /** Different positions get different labels. */
  lemma DecInjective(m: nat, n: nat)
    requires Dec(m) == Dec(n)
    ensures m == n
  {
    DecRoundTrip(m);
    DecRoundTrip(n);
  }

  /* ---------- The context string ---------- */

  /** `(${i + 1}) ${c.text}` for the context at zero-based position `i`. */
  function Entry(k: nat, c: Context): string {
    "(" + Dec(k) + ") " + Render(c.text)
  }

  /** `contexts.map((c, i) => …)`. */
  function Entries(cs: seq<Context>): (r: seq<string>)
    ensures |r| == |cs|
  {
    if |cs| == 0 then [] else Entries(cs[..|cs| - 1]) + [Entry(|cs|, cs[|cs| - 1])]
  }

  /** Entry `i` is the context at `i`, numbered `i + 1`. */
  lemma {:induction false} EntriesAt(cs: seq<Context>, i: nat)
    requires i < |cs|
    ensures Entries(cs)[i] == "(" + Dec(i + 1) + ") " + Render(cs[i].text)
    decreases |cs|
  {
    if i < |cs| - 1 {
      EntriesAt(cs[..|cs| - 1], i);
    }
  }

  /** `.join("\n\n")`. */
  function ContextText(cs: seq<Context>): (r: string) {
    Join(Entries(cs), "\n\n")
  }

  /** No contexts, no context text. */
  lemma ContextTextEmpty()
    ensures ContextText([]) == ""
  {
  }

  /** One context is its own entry, numbered one. */
  lemma ContextTextOne(c: Context)
    ensures ContextText([c]) == "(1) " + Render(c.text)
  {
    assert Entries([c]) == [Entry(1, c)] by {
      assert [c][..0] == [];
    }
    assert Dec(1) == "1";
  }

  /** A null text is printed as "null" and a missing one as "undefined":
      the two are told apart in the prompt. */
  lemma ContextTextOneMissing(title: Field)
    ensures ContextText([Context(Null, title)]) == "(1) null"
    ensures ContextText([Context(Undefined, title)]) == "(1) undefined"
  {
    ContextTextOne(Context(Null, title));
    ContextTextOne(Context(Undefined, title));
  }

  lemma {:induction false} JoinAppend(xs: seq<string>, x: string, sep: string)
    requires |xs| > 0
    ensures Join(xs + [x], sep) == Join(xs, sep) + sep + x
    decreases |xs|
  {
    if |xs| > 1 {
      assert (xs + [x])[1..] == xs[1..] + [x];
      JoinAppend(xs[1..], x, sep);
    } else {
      assert (xs + [x])[1..] == [x];
    }
  }

  /** Adding a context appends a blank line and its numbered entry: the
      contexts appear in order, each with its own position. */
  lemma {:induction false} ContextTextAppend(cs: seq<Context>, c: Context)
    requires |cs| > 0
    ensures ContextText(cs + [c]) == ContextText(cs) + "\n\n" + Entry(|cs| + 1, c)
  {
    var all := cs + [c];
    assert all[..|all| - 1] == cs;
    assert Entries(all) == Entries(cs) + [Entry(|cs| + 1, c)];
    JoinAppend(Entries(cs), Entry(|cs| + 1, c), "\n\n");
  }

  /** Only the texts matter: contexts that differ in their titles give the
      same context string. */
  lemma ContextTextIgnoresTitles(cs: seq<Context>, ds: seq<Context>)
    requires |cs| == |ds|
    requires forall i :: 0 <= i < |cs| ==> cs[i].text == ds[i].text
    ensures ContextText(cs) == ContextText(ds)
  {
    forall i | 0 <= i < |cs|
      ensures Entries(cs)[i] == Entries(ds)[i]
    {
      EntriesAt(cs, i);
      EntriesAt(ds, i);
    }
    assert Entries(cs) == Entries(ds);
  }

  /* ---------- The chat request ---------- */

  datatype Role = System | User

  datatype Message = Message(role: Role, content: string)

  /** The arguments of `openai.chat.completions.create`. */
  datatype ChatRequest = ChatRequest(model: string, messages: seq<Message>, temperature: real)

  const Model: string := "gpt-4o"

  const Temperature: real := 0.3

  /** The template literal of the user message. */
  function UserContent(contextText: string, query: string): string {
    "\nContext:\n" + contextText + "\n\nQuestion:\n" + query + "\n"
  }

  /** What follows the context string in the user message, when the message
      has that shape. */
  function QueryOf(content: string, contextText: string): (q: Option<string>)
  {
    var head := "\nContext:\n" + contextText + "\n\nQuestion:\n";
    if |content| >= |head| + 1 && content[..|head|] == head && content[|content| - 1] == '\n'
    then Some(content[|head|..|content| - 1])
    else None
  }

  /** The question can be read back out of the user message: it is placed
      whole, after the context string and before the final newline. */
  lemma QueryRoundTrip(contextText: string, query: string)
    ensures QueryOf(UserContent(contextText, query), contextText) == Some(query)
  {
    var head := "\nContext:\n" + contextText + "\n\nQuestion:\n";
    var content := UserContent(contextText, query);
    assert content == head + query + "\n";
    assert content[..|head|] == head;
    assert content[|head|..|content| - 1] == query;
  }

  /** So two questions asked over the same contexts never share a request. */
  lemma UserContentInjective(contextText: string, q1: string, q2: string)
    requires UserContent(contextText, q1) == UserContent(contextText, q2)
    ensures q1 == q2
  {
    QueryRoundTrip(contextText, q1);
    QueryRoundTrip(contextText, q2);
  }

  /** The request `generateAnswer` sends. */
  function BuildRequest(systemPrompt: string, query: string, contexts: seq<Context>): (r: ChatRequest)
    ensures r.model == "gpt-4o" && r.temperature == 0.3
    ensures |r.messages| == 2
    ensures r.messages[0] == Message(System, systemPrompt)
    ensures r.messages[1].role == User
    ensures QueryOf(r.messages[1].content, ContextText(contexts)) == Some(query)
  {
    QueryRoundTrip(ContextText(contexts), query);
    ChatRequest(Model, [Message(System, systemPrompt), Message(User, UserContent(ContextText(contexts), query))], Temperature)
  }

  /** The part of the response the code reads: each choice's
      `message.content`, which the provider may leave null. */
  datatype Choice = Choice(content: Option<string>)

  /** How `generateAnswer` can fail: the provider throws, or there is no
      first choice to read (`response.choices[0]` is undefined). */
  datatype GenerateError<E> = Provider(error: E) | NoChoice

  /** `generateAnswer(query, contexts)` with the chat provider `chat`. */
  function GenerateAnswer<E>(
    systemPrompt: string, query: string, contexts: seq<Context>,
    chat: ChatRequest -> Result<seq<Choice>, E>)
    : (r: Result<Option<string>, GenerateError<E>>)
    ensures var response := chat(BuildRequest(systemPrompt, query, contexts));
      && (response.Failure? ==> r == Failure(Provider(response.error)))
      && (response.Success? && |response.value| == 0 ==> r == Failure(NoChoice))
      && (r.Success? <==> response.Success? && |response.value| > 0)
      && (r.Success? ==> r.value == response.value[0].content)
  {
    match chat(BuildRequest(systemPrompt, query, contexts))
    case Failure(e) => Failure(Provider(e))
    case Success(choices) =>
      if |choices| == 0 then Failure(NoChoice) else Success(choices[0].content)
  }

  /** The answer depends on the contexts' texts only, never their titles. */
  lemma GenerateIgnoresTitles<E>(
    systemPrompt: string, query: string, cs: seq<Context>, ds: seq<Context>,
    chat: ChatRequest -> Result<seq<Choice>, E>)
    requires |cs| == |ds|
    requires forall i :: 0 <= i < |cs| ==> cs[i].text == ds[i].text
    ensures BuildRequest(systemPrompt, query, cs) == BuildRequest(systemPrompt, query, ds)
    ensures GenerateAnswer(systemPrompt, query, cs, chat) == GenerateAnswer(systemPrompt, query, ds, chat)
  {
    ContextTextIgnoresTitles(cs, ds);
  }
}
