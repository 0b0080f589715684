/**
 * The process-wide question-answering chain: an empty slot that one
 * successful initialisation fills, and queries that read it.
 */
module RagEngine {
  import opened Wrappers
  import opened EmployeeDocuments

  /** The vector store built over the documents (embedding model and FAISS index); not modelled. */
  type Store

  /** The retrieval question-answering chain (multi-query retriever and LLM); not modelled. */
  type Chain

  /** The generation model the chain is configured with. */
  const GeminiModel: string := "gemini-1.5-flash"

  /** The configured generation client: its model and the API key it authenticates with. */
  datatype Llm = Llm(model: string, apiKey: string)

  /** The dictionary a chain's `invoke` returns. */
  type Response = map<string, string>

  /** The key of the answer text in a response. */
  const ResultKey: string := "result"

  /** The answer given when a response carries no `result`. */
  const FallbackAnswer: string := "Sorry, I encountered an error."

  /** Why initialisation raised, by the step that raised. */
  datatype InitError =
    | LoadFailed(cause: LoadError)
    | IndexFailed(message: string)
    | MissingApiKey
    | ChainFailed(message: string)

  /** A query against the empty slot. */
  datatype QueryError = NotInitialized

  /**
   * What initialisation reads from its surroundings: the parsed employee
   * file, the `GEMINI_API_KEY` environment variable, and the library steps
   * that build the vector store and assemble the chain, each of which may fail.
   */
  datatype Environment = Environment(
    data: ParsedData,
    apiKey: Option<string>,
    buildStore: seq<Document> -> Result<Store, string>,
    buildChain: (Store, Llm) -> Result<Chain, string>)

  /** The generation client is created only from a present, non-empty API key. */
  function InitializeLlm(apiKey: Option<string>): (r: Result<Llm, InitError>)
    ensures r.Success? <==> apiKey.Some? && apiKey.value != ""
    ensures r.Success? ==> r.value.apiKey == apiKey.value && r.value.model == GeminiModel
    ensures r.Failure? ==> r.error == MissingApiKey
  {
    match apiKey
    case None => Failure(MissingApiKey)
    case Some(key) => if key == "" then Failure(MissingApiKey) else Success(Llm(GeminiModel, key))
  }

  /**
   * What one full build yields: load the documents, build the store, create
   * the generation client, assemble the chain; the first step that fails
   * decides the error, so a bad record wins over a missing key.
   */
  function Build(env: Environment): (r: Result<Chain, InitError>)
    ensures LoadDocuments(env.data).Failure? ==> r == Failure(LoadFailed(LoadDocuments(env.data).error))
  {
    match LoadDocuments(env.data)
    case Failure(e) => Failure(LoadFailed(e))
    case Success(docs) =>
      match env.buildStore(docs)
      case Failure(m) => Failure(IndexFailed(m))
      case Success(store) =>
        match InitializeLlm(env.apiKey)
        case Failure(e) => Failure(e)
        case Success(llm) =>
          match env.buildChain(store, llm)
          case Failure(m) => Failure(ChainFailed(m))
          case Success(chain) => Success(chain)
  }

  /**
   * A build succeeds only when every employee record is complete and the API
   * key is present and non-empty; the chain it yields is the one assembled
   * from the store over exactly the loaded documents.
   */
  lemma BuildSucceeds(env: Environment)
    requires Build(env).Success?
    ensures env.data.employees.Some?
    ensures forall i :: 0 <= i < |env.data.employees.value| ==> Lookup(env.data.employees.value[i]).Success?
    ensures env.apiKey.Some? && env.apiKey.value != ""
    ensures var docs := LoadDocuments(env.data).value;
      env.buildStore(docs).Success? &&
      env.buildChain(env.buildStore(docs).value, Llm(GeminiModel, env.apiKey.value)) == Success(Build(env).value)
  {
    DocsOfSucceeds(env.data.employees.value);
  }

  /**
   * The order in which a failing build reports its error: the store is
   * built only over successfully loaded documents, the key is checked only
   * after the store exists, and the chain is assembled only after that; a
   * failing assembly is reported with its own message.
   */
  lemma BuildErrorOrder(env: Environment)
    ensures var load := LoadDocuments(env.data);
      load.Success? && env.buildStore(load.value).Failure? ==>
        Build(env) == Failure(IndexFailed(env.buildStore(load.value).error))
    ensures var load := LoadDocuments(env.data);
      (load.Success? && env.buildStore(load.value).Success? && InitializeLlm(env.apiKey).Failure?) ==>
        Build(env) == Failure(MissingApiKey)
    ensures var load := LoadDocuments(env.data);
      (load.Success? && env.buildStore(load.value).Success? && InitializeLlm(env.apiKey).Success? &&
       env.buildChain(env.buildStore(load.value).value, InitializeLlm(env.apiKey).value).Failure?) ==>
        Build(env) == Failure(ChainFailed(
          env.buildChain(env.buildStore(load.value).value, InitializeLlm(env.apiKey).value).error))
    ensures var load := LoadDocuments(env.data);
      (Build(env).Failure? && Build(env).error.ChainFailed?) ==>
        (load.Success? && env.buildStore(load.value).Success? && InitializeLlm(env.apiKey).Success?)
  {
  }

  /**
   * Conversely, complete records, a store built over their documents, a
   * present non-empty key and a chain assembled from that store and key's
   * client make the build return that chain.
   */
  lemma BuildFromSteps(env: Environment, docs: seq<Document>, store: Store, chain: Chain)
    requires env.data.employees.Some?
    requires var es := env.data.employees.value;
      |docs| == |es| &&
      forall i :: 0 <= i < |es| ==> Lookup(es[i]).Success? && docs[i] == ToDocument(Lookup(es[i]).value)
    requires env.apiKey.Some? && env.apiKey.value != ""
    requires env.buildStore(docs) == Success(store)
    requires env.buildChain(store, Llm(GeminiModel, env.apiKey.value)) == Success(chain)
    ensures Build(env) == Success(chain)
  {
    var es := env.data.employees.value;
    DocsOfSucceeds(es);
    DocsOfShape(es);
    assert DocsOf(es).value == docs;
  }

  /**
   * A missing or empty API key makes the build fail, at the latest when the
   * generation client is created, so the chain is never assembled.
   */
  lemma BuildWithoutApiKey(env: Environment)
    requires env.apiKey.None? || env.apiKey.value == ""
    ensures Build(env).Failure?
    ensures Build(env).error.LoadFailed? || Build(env).error.IndexFailed? || Build(env).error == MissingApiKey
  {
  }

  /**
   * One call of the initialiser on the slot: a filled slot is returned as
   * it is; an empty slot is filled with the built chain, or stays empty if
   * the build fails.
   */
  function InitStep(slot: Option<Chain>, env: Environment): (r: (Option<Chain>, Result<Chain, InitError>))
    ensures slot.Some? ==> r.0 == slot && r.1 == Success(slot.value)
    ensures r.0.Some? <==> r.1.Success?
    ensures r.1.Success? ==> r.0 == Some(r.1.value)
    ensures slot.None? ==> r.1 == Build(env)
  {
    match slot
    case Some(chain) => (slot, Success(chain))
    case None =>
      match Build(env)
      case Success(chain) => (Some(chain), Success(chain))
      case Failure(e) => (None, Failure(e))
  }

  /** `response.get("result", fallback)`. */
  function AnswerOf(response: Response): (answer: string)
    ensures ResultKey in response ==> answer == response[ResultKey]
    ensures ResultKey !in response ==> answer == FallbackAnswer
  {
    if ResultKey in response then response[ResultKey] else FallbackAnswer
  }

  /** One query against the slot: refused while it is empty, otherwise the chain's answer. */
  function QueryStep(slot: Option<Chain>, question: string, invoke: (Chain, string) -> Response)
    : (r: Result<string, QueryError>)
    ensures slot.None? <==> r == Failure(NotInitialized)
    ensures slot.Some? ==> r == Success(AnswerOf(invoke(slot.value, question)))
  {
    match slot
    case None => Failure(NotInitialized)
    case Some(chain) => Success(AnswerOf(invoke(chain, question)))
  }

  /** A call a request handler or the startup hook makes on the engine. */
  datatype Call =
    | Initialize(env: Environment)
    | Query(question: string, invoke: (Chain, string) -> Response)

  /** The slot after a sequence of calls, in order; queries leave it as it is. */
  function Run(slot: Option<Chain>, calls: seq<Call>): Option<Chain>
    decreases |calls|
  {
    if calls == [] then slot
    else
      match calls[0]
      case Initialize(env) => Run(InitStep(slot, env).0, calls[1..])
      case Query(_, _) => Run(slot, calls[1..])
  }

  /** Whether calling with `c` would build a chain successfully. */
  predicate BuildsChain(c: Call)
  {
    c.Initialize? && Build(c.env).Success?
  }

  /** Once filled, the slot keeps the same chain whatever calls follow. */
  lemma {:induction false} ReadyIsPermanent(chain: Chain, calls: seq<Call>)
    ensures Run(Some(chain), calls) == Some(chain)
    decreases |calls|
  {
    if calls != [] {
      ReadyIsPermanent(chain, calls[1..]);
    }
  }

  /** While no initialisation succeeds, the slot stays empty. */
  lemma {:induction false} FailuresKeepUninitialized(calls: seq<Call>)
    requires forall i :: 0 <= i < |calls| ==> !BuildsChain(calls[i])
    ensures Run(None, calls) == None
    decreases |calls|
  {
    if calls != [] {
      assert !BuildsChain(calls[0]);
      FailuresKeepUninitialized(calls[1..]);
    }
  }

  /**
   * A filled slot holds the chain of the first initialisation that
   * succeeded; every earlier initialisation failed and changed nothing.
   */
  lemma {:induction false} ReadyFromFirstSuccess(chain: Chain, calls: seq<Call>)
    requires Run(None, calls) == Some(chain)
    ensures exists i :: (0 <= i < |calls| && BuildsChain(calls[i]) && Build(calls[i].env) == Success(chain) &&
      forall j :: 0 <= j < i ==> !BuildsChain(calls[j]))
    decreases |calls|
  {
    var first, rest := calls[0], calls[1..];
    if BuildsChain(first) {
      var built := Build(first.env).value;
      assert Run(None, calls) == Run(Some(built), rest);
      ReadyIsPermanent(built, rest);
    } else {
      assert Run(None, calls) == Run(None, rest) by {
        if first.Initialize? {
          assert InitStep(None, first.env).0 == None;
        }
      }
      ReadyFromFirstSuccess(chain, rest);
      var i :| 0 <= i < |rest| && BuildsChain(rest[i]) && Build(rest[i].env) == Success(chain) &&
        (forall j :: 0 <= j < i ==> !BuildsChain(rest[j]));
      assert BuildsChain(calls[i + 1]) && Build(calls[i + 1].env) == Success(chain);
      assert forall j :: 0 <= j < i + 1 ==> !BuildsChain(calls[j]) by {
        forall j | 0 <= j < i + 1 ensures !BuildsChain(calls[j]) {
          if j > 0 {
            assert calls[j] == rest[j - 1];
          }
        }
      }
    }
  }

  /** The engine's process-wide slot for the question-answering chain. */
  class Engine {
    var ragChain: Option<Chain>

    /** The process starts with the slot empty. */
    constructor ()
      ensures ragChain == None
    {
      ragChain := None;
    }

    /**
     * Returns the chain already in the slot without rebuilding it; otherwise
     * runs every build step and writes the slot only once all of them have
     * succeeded.
     */
    method InitializeRagChain(env: Environment) returns (r: Result<Chain, InitError>)
      modifies this
      ensures (ragChain, r) == InitStep(old(ragChain), env)
      ensures old(ragChain).Some? ==> ragChain == old(ragChain) && r == Success(old(ragChain).value)
      ensures r.Failure? ==> ragChain == None
    {
      if ragChain.Some? {
        return Success(ragChain.value);
      }
      var docs := LoadEmployeesAsDocuments(env.data);
      if docs.Failure? {
        return Failure(LoadFailed(docs.error));
      }
      var store := env.buildStore(docs.value);
      if store.Failure? {
        return Failure(IndexFailed(store.error));
      }
      var llm := InitializeLlm(env.apiKey);
      if llm.Failure? {
        return Failure(llm.error);
      }
      var chain := env.buildChain(store.value, llm.value);
      if chain.Failure? {
        return Failure(ChainFailed(chain.error));
      }
      ragChain := Some(chain.value);
      return Success(chain.value);
    }

    /**
     * Refuses while the slot is empty; otherwise invokes the chain and returns
     * the response's `result`, or the fallback answer when it has none. The
     * slot is not changed.
     */
    method QueryRagChain(question: string, invoke: (Chain, string) -> Response)
      returns (r: Result<string, QueryError>)
      ensures ragChain.None? ==> r == Failure(NotInitialized)
      ensures ragChain.Some? ==> r.Success? && r.value == AnswerOf(invoke(ragChain.value, question))
    {
      if ragChain.None? {
        return Failure(NotInitialized);
      }
      var response := invoke(ragChain.value, question);
      return Success(AnswerOf(response));
    }
  }
}
