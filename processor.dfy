/** `chatbot/response_processor.py`: one chat turn. The processor loads the
    adviser's cached context, renders the recent history, asks the intent
    classifier for a tool spec, relays the chosen answer generator's stream,
    and on any failure pushes a single "error" event. The context cache, the
    classifier and the two answer generators are collaborators passed in as
    functions. */
module ResponseProcessor {

  import opened Wrappers
  import opened Text
  import opened History
  import Rag
  import opened RedisUtils
  import opened QueryResponse

  /** The adviser's cached context, a JSON object: its "history" and
      "products" entries when present, and the names of any other keys. */
  datatype UserContext = UserContext(history: Option<seq<HistoryRecord>>, products: Option<seq<Rag.Product>>, otherKeys: set<string>)

  /** `{}`, the falsy context. */
  predicate IsEmpty(c: UserContext)
  {
    c.history.None? && c.products.None? && c.otherKeys == {}
  }

  const EmptyContext := UserContext(None, None, {})

  /** `retrieve_context`: the decoded context, or None when nothing usable is
      cached (a failed lookup or a failed decode also yields None). */
  type ContextSource = string -> Option<UserContext>

  /** `predict_tool(query, history_string)`: the tool spec dict, or the message
      of the exception it raised. */
  type Classifier = (string, string) -> Result<map<string, string>, string>

  /** The answer generator chosen for the turn, with its arguments. */
  datatype Call =
    | RagCall(question: string, products: seq<Rag.Product>, history: string, toolSpec: map<string, string>)
    | FaqCall(message: string)

  /** `get_rag_answer` and `get_faq_answer`: the stream each one produces. */
  type Generators = Call -> Source

  const AdviserIdEmpty := "Adviser ID cannot be empty"
  const NoneHasNoGet := "'NoneType' object has no attribute 'get'"
  const ErrorPrefix := "Error processing bot response: "

  /** `_initialize`: the adviser id to use (the argument, else the stored one),
      and the context it returns: the cached one when non-empty, else None. */
  function InitResult(adviserIdArg: string, adviserId: string, retrieve: ContextSource): Result<Option<UserContext>, string>
  {
    if adviserIdArg == "" && adviserId == "" then Failure(AdviserIdEmpty)
    else
      var id := if adviserIdArg != "" then adviserIdArg else adviserId;
      var ctx := retrieve(id).GetOr(EmptyContext);
      Success(if IsEmpty(ctx) then None else Some(ctx))
  }

  /** The intent dispatch: "ProductInfo" selects the RAG answer with the
      query, products, rendered history and tool spec; any other intent, or
      none (read as "AnnuitiesFAQ"), selects the FAQ answer with the query. */
  function Dispatch(query: string, products: seq<Rag.Product>, historyString: string, toolSpec: map<string, string>): Call
  {
    var intent := if "intent" in toolSpec then toolSpec["intent"] else "AnnuitiesFAQ";
    if intent == "ProductInfo" then RagCall(query, products, historyString, toolSpec) else FaqCall(query)
  }

  lemma DispatchCases(query: string, products: seq<Rag.Product>, historyString: string, toolSpec: map<string, string>)
    ensures Dispatch(query, products, historyString, toolSpec).RagCall?
      <==> "intent" in toolSpec && toolSpec["intent"] == "ProductInfo"
    ensures Dispatch(query, products, historyString, toolSpec).RagCall? ==>
      Dispatch(query, products, historyString, toolSpec) == RagCall(query, products, historyString, toolSpec)
    ensures Dispatch(query, products, historyString, toolSpec).FaqCall? ==>
      Dispatch(query, products, historyString, toolSpec) == FaqCall(query)
  {
    assert "AnnuitiesFAQ" != "ProductInfo" by {
      assert "AnnuitiesFAQ"[0] != "ProductInfo"[0];
    }
  }

  /** Everything in `process` before the relay: the call to relay, or the
      message of the exception that sends the turn to the error path. An empty
      context makes `_initialize` return None, and the following `.get`
      raises AttributeError. */
  function Plan(query: string, adviserId: string, retrieve: ContextSource, predict: Classifier): Result<Call, string>
  {
    match InitResult("", adviserId, retrieve)
    case Failure(e) => Failure(e)
    case Success(None) => Failure(NoneHasNoGet)
    case Success(Some(ctx)) =>
      var historyString := HistoryString(ctx.history.GetOr([]));
      var products := ctx.products.GetOr([]);
      match predict(query, historyString)
      case Failure(e) => Failure(e)
      case Success(spec) => Success(Dispatch(query, products, historyString, spec))
  }

  /** The "error" event of the failure path. */
  function ErrorEvent(chatId: string): Dict
  {
    Formatter("error", chatId, None, Some("Processing failed"))
  }

  /** What `process` returns. */
  datatype ProcessReply = Json(reply: RelayReply) | ErrorDict(status: string, message: string) | NoReply

  /** Every event of the turn, in order. */
  function TurnEvents(plan: Result<Call, string>, generate: Generators, chatId: string): seq<Dict>
  {
    match plan
    case Success(call) => RelayEvents(generate(call), chatId)
    case Failure(_) => [ErrorEvent(chatId)]
  }

  /** What the turn returns. */
  function TurnReply(plan: Result<Call, string>, generate: Generators, chatId: string, responseType: string): ProcessReply
  {
    match plan
    case Success(call) => Json(RelayResult(generate(call), chatId))
    case Failure(e) => if responseType == "api" then ErrorDict("error", ErrorPrefix + e) else NoReply
  }

  class BotResponseProcessor {
    const query: string
    const adviserId: string
    const chatId: string
    var userContext: Option<UserContext>

    /** `__init__`: the query is stored stripped of surrounding whitespace. */
    constructor(query: string, adviserId: string, chatId: string)
      ensures this.query == Strip(query) && this.adviserId == adviserId && this.chatId == chatId
      ensures userContext == None
    {
      this.query := Strip(query);
      this.adviserId := adviserId;
      this.chatId := chatId;
      userContext := None;
    }

    /** `_initialize`: raises ValueError when both ids are empty, else stores
        the cached context (`{}` when there is none) and returns it only when
        it is non-empty. */
    method Initialize(adviserIdArg: string, retrieve: ContextSource) returns (r: Result<Option<UserContext>, string>)
      modifies this
      ensures r == InitResult(adviserIdArg, adviserId, retrieve)
      ensures r.Failure? ==> userContext == old(userContext)
      ensures r.Success? ==>
        userContext == Some(retrieve(if adviserIdArg != "" then adviserIdArg else adviserId).GetOr(EmptyContext))
      ensures r.Success? ==> userContext.Some? && (r.value.Some? <==> !IsEmpty(userContext.value))
      ensures r.Success? && r.value.Some? ==> userContext == r.value
    {
      if adviserIdArg == "" && adviserId == "" {
        return Failure(AdviserIdEmpty);
      }
      var id := if adviserIdArg != "" then adviserIdArg else adviserId;
      userContext := retrieve(id);
      userContext := Some(userContext.GetOr(EmptyContext));
      if !IsEmpty(userContext.value) {
        return Success(userContext);
      }
      return Success(None);
    }

    /** `process`: plan the turn, relay the chosen stream, or push one "error"
        event and answer with an error dict in "api" mode and None otherwise. */
    method Process(responseType: string, retrieve: ContextSource, predict: Classifier, generate: Generators, store: RedisStore)
      returns (r: ProcessReply)
      modifies this, store
      ensures r == TurnReply(Plan(query, adviserId, retrieve, predict), generate, chatId, responseType)
      ensures userContext == if adviserId == "" then old(userContext) else Some(retrieve(adviserId).GetOr(EmptyContext))
      ensures store.up == old(store.up)
      ensures store.streams == PushedAll(old(store.streams), store.prefix, store.up, TurnEvents(Plan(query, adviserId, retrieve, predict), generate, chatId))
    {
      ghost var plan := Plan(query, adviserId, retrieve, predict);
      var init := Initialize("", retrieve);
      var failure: string;
      if init.Failure? {
        failure := init.error;
      } else if init.value.None? {
        failure := NoneHasNoGet;
      } else {
        var ctx := init.value.value;
        var historyString := RenderHistory(ctx.history.GetOr([]));
        var products := ctx.products.GetOr([]);
        var spec := predict(query, historyString);
        if spec.Failure? {
          failure := spec.error;
        } else {
          var call := Dispatch(query, products, historyString, spec.value);
          var reply := HandleResponseStream(generate(call), chatId, store);
          return Json(reply);
        }
      }
      store.Emit("error", chatId, None, Some("Processing failed"));
      assert [ErrorEvent(chatId)][1..] == [];
      if responseType == "api" {
        return ErrorDict("error", ErrorPrefix + failure);
      }
      return NoReply;
    }
  }

  /** The `history_string` loop: the items of the two most recent records,
      most recent first, each rendered as one question and answer. */
  method RenderHistory(history: seq<HistoryRecord>) returns (s: string)
    ensures s == HistoryString(history)
  {
    var recent := Recent(history);
    s := "";
    for i := 0 to |recent|
      invariant s == Render(Items(recent[..i]))
    {
      var record := recent[i];
      s := AppendTurns(s, record);
      RenderAppend(Items(recent[..i]), record);
      ItemsSnoc(recent[..i], record);
      assert recent[..i + 1] == recent[..i] + [record];
    }
    assert recent[..|recent|] == recent;
  }

  /** The inner loop of `history_string`: one record's items appended in order. */
  method AppendTurns(prefix: string, record: HistoryRecord) returns (s: string)
    ensures s == prefix + Render(record)
  {
    s := prefix;
    for j := 0 to |record|
      invariant s == prefix + Render(record[..j])
    {
      var turn := Turn(record[j].0, record[j].1);
      RenderSnoc(record[..j], record[j]);
      assert record[..j + 1] == record[..j] + [record[j]];
      assert (prefix + Render(record[..j])) + turn == prefix + (Render(record[..j]) + turn);
      s := s + turn;
    }
    assert record[..|record|] == record;
  }

  // ---------------------------------------------------------------------------
  // Properties of a turn

  /** Both adviser ids empty: ValueError. An empty or missing cached context:
      `_initialize` returns None and the turn fails on it. Either way the turn
      takes the error path before the classifier is asked. */
  lemma NoContextFails(query: string, adviserId: string, retrieve: ContextSource, predict: Classifier)
    ensures adviserId == "" ==> Plan(query, adviserId, retrieve, predict) == Failure(AdviserIdEmpty)
    ensures adviserId != "" && (retrieve(adviserId).None? || IsEmpty(retrieve(adviserId).value)) ==>
      Plan(query, adviserId, retrieve, predict) == Failure(NoneHasNoGet)
  {
  }

  /** A planned RAG call carries the stripped query, the cached products and
      the rendered two most recent history records; it is planned exactly when
      the classifier says "ProductInfo". */
  lemma PlanRagCall(query: string, adviserId: string, retrieve: ContextSource, predict: Classifier)
    requires Plan(query, adviserId, retrieve, predict).Success?
    ensures var ctx := retrieve(adviserId).value;
      var h := HistoryString(ctx.history.GetOr([]));
      var spec := predict(query, h);
      && adviserId != "" && !IsEmpty(ctx) && spec.Success?
      && (Plan(query, adviserId, retrieve, predict).value.RagCall? <==>
            "intent" in spec.value && spec.value["intent"] == "ProductInfo")
      && (Plan(query, adviserId, retrieve, predict).value.RagCall? ==>
            Plan(query, adviserId, retrieve, predict).value == RagCall(query, ctx.products.GetOr([]), h, spec.value))
      && (Plan(query, adviserId, retrieve, predict).value.FaqCall? ==>
            Plan(query, adviserId, retrieve, predict).value == FaqCall(query))
  {
    var ctx := retrieve(adviserId).GetOr(EmptyContext);
    var h := HistoryString(ctx.history.GetOr([]));
    DispatchCases(query, ctx.products.GetOr([]), h, predict(query, h).value);
  }

  /** A failed turn pushes exactly one event, an "error" event with status
      "Processing failed"; a relayed turn pushes no "error" event at all. */
  lemma ErrorEventOnlyOnFailure(plan: Result<Call, string>, generate: Generators, chatId: string)
    ensures plan.Failure? ==>
      TurnEvents(plan, generate, chatId) == [ErrorEvent(chatId)]
      && TypeOf(ErrorEvent(chatId)) == "error"
      && "status" in DictMap(ErrorEvent(chatId)) && DictMap(ErrorEvent(chatId))["status"] == "Processing failed"
    ensures CountType(TurnEvents(plan, generate, chatId), "error") == if plan.Failure? then 1 else 0
  {
    FormatterFields("error", chatId, None, Some("Processing failed"));
    if plan.Success? {
      RelayEndsOnce(generate(plan.value), chatId);
    } else {
      assert [ErrorEvent(chatId)][..0] == [];
    }
  }

  /** In "api" mode a failed turn answers with the error dict naming the
      exception; in any other mode it answers None. A relayed turn answers
      with the relay's result in both modes. */
  lemma ReplyByMode(plan: Result<Call, string>, generate: Generators, chatId: string, responseType: string)
    ensures plan.Failure? && responseType == "api" ==>
      TurnReply(plan, generate, chatId, responseType) == ErrorDict("error", ErrorPrefix + plan.error)
    ensures plan.Failure? && responseType != "api" ==> TurnReply(plan, generate, chatId, responseType) == NoReply
    ensures plan.Success? ==>
      TurnReply(plan, generate, chatId, responseType) == Json(RelayResult(generate(plan.value), chatId))
  {
  }

  /** A "ProductInfo" turn whose recent history holds an item reaches
      `get_rag_answer` with a non-empty rendered history string, on which the
      resolver raises inside `tool_func()`; given a RAG generator that raises
      there, the relay answers `{"status": "failed", "response": ""}` and the
      turn pushes no event at all, neither "ended" nor "error". */
  lemma ProductTurnWithHistoryPushesNothing(query: string, adviserId: string, retrieve: ContextSource,
                                            predict: Classifier, generate: Generators, chatId: string, responseType: string)
    requires Plan(query, adviserId, retrieve, predict).Success? && Plan(query, adviserId, retrieve, predict).value.RagCall?
    requires retrieve(adviserId).Some? && Items(Recent(retrieve(adviserId).value.history.GetOr([]))) != []
    requires forall c: Call | c.RagCall? && c.history != "" :: generate(c) == ToolRaised
    ensures TurnEvents(Plan(query, adviserId, retrieve, predict), generate, chatId) == []
    ensures TurnReply(Plan(query, adviserId, retrieve, predict), generate, chatId, responseType) == Json(Failed)
  {
    PlanRagCall(query, adviserId, retrieve, predict);
    assert |HistoryString(retrieve(adviserId).value.history.GetOr([]))| >= 20;
  }
}
