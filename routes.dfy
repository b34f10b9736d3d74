/** The pure parts of the agent HTTP route (`/stream`): validating the chat
    history of a request into completion messages, choosing the agent for the
    requested chain, and the JSON shape of the streamed events. */
module Routes {
  import opened Common

  // ---------------------------------------------------------------------
  // Chat history
  // ---------------------------------------------------------------------

  /** A chat-history record as it arrives: a role and any JSON content. */
  datatype RawMessage = RawMessage(role: string, content: Json)

  /** A non-empty list, `OneOrMany`. */
  datatype OneOrMany<T> = OneOrMany(first: T, rest: seq<T>)

  function One<T>(x: T): OneOrMany<T>
  {
    OneOrMany(x, [])
  }

  datatype UserContent = UserText(text: string)
  datatype AssistantContent = AssistantText(text: string)

  /** A completion message. */
  datatype Message =
    | User(userContent: OneOrMany<UserContent>)
    | Assistant(assistantContent: OneOrMany<AssistantContent>)

  const InvalidUserContent: string := "Invalid user content format"
  const InvalidAssistantContent: string := "Invalid assistant content format"
  const InvalidRole: string := "Invalid role"

  /** One record of `deserialize_messages`: the role is matched exactly and
      case-sensitively; the content must be a JSON string, which becomes the
      message's single text item. */
  function DeserializeMessage(raw: RawMessage): (r: Result<Message, string>)
    ensures raw.role == "user" && raw.content.JString? ==> r == Ok(User(One(UserText(raw.content.s))))
    ensures raw.role == "user" && !raw.content.JString? ==> r == Err(InvalidUserContent)
    ensures raw.role == "assistant" && raw.content.JString? ==>
              r == Ok(Assistant(One(AssistantText(raw.content.s))))
    ensures raw.role == "assistant" && !raw.content.JString? ==> r == Err(InvalidAssistantContent)
    ensures raw.role != "user" && raw.role != "assistant" ==> r == Err(InvalidRole)
  {
    match raw.role
    case "user" =>
      (match raw.content
       case JString(s) => Ok(User(One(UserText(s))))
       case _ => Err(InvalidUserContent))
    case "assistant" =>
      (match raw.content
       case JString(s) => Ok(Assistant(One(AssistantText(s))))
       case _ => Err(InvalidAssistantContent))
    case _ => Err(InvalidRole)
  }

  /** `deserialize_messages`: all or nothing, in order. The result is the list
      of converted records when every record converts, and otherwise the error
      of the first record that does not. */
  function DeserializeMessages(raws: seq<RawMessage>): (r: Result<seq<Message>, string>)
    ensures r.Ok? <==> forall i :: 0 <= i < |raws| ==> DeserializeMessage(raws[i]).Ok?
    ensures r.Ok? ==>
              && |r.value| == |raws|
              && forall i :: 0 <= i < |raws| ==> DeserializeMessage(raws[i]) == Ok(r.value[i])
    ensures r.Err? ==>
              exists i :: && 0 <= i < |raws|
                          && DeserializeMessage(raws[i]) == Err(r.error)
                          && forall j :: 0 <= j < i ==> DeserializeMessage(raws[j]).Ok?
  {
    if raws == [] then Ok([])
    else
      match DeserializeMessage(raws[0])
      case Err(e) => Err(e)
      case Ok(m) =>
        var rest := DeserializeMessages(raws[1..]);
        assert forall i :: 1 <= i < |raws| ==> raws[1..][i - 1] == raws[i];
        match rest
        case Err(e) =>
          assert exists j :: 0 <= j < |raws| - 1 && DeserializeMessage(raws[1..][j]) == Err(e)
                             && forall k :: 0 <= k < j ==> DeserializeMessage(raws[1..][k]).Ok?;
          var j :| 0 <= j < |raws| - 1 && DeserializeMessage(raws[1..][j]) == Err(e)
                   && forall k :: 0 <= k < j ==> DeserializeMessage(raws[1..][k]).Ok?;
          assert DeserializeMessage(raws[j + 1]) == Err(e);
          assert forall k :: 1 <= k < j + 1 ==> DeserializeMessage(raws[k]).Ok?;
          Err(e)
        case Ok(ms) => Ok([m] + ms)
  }

  /** The record a client sends for a single-text message. */
  function ToRaw(m: Message): RawMessage
  {
    match m
    case User(c) => RawMessage("user", JString(c.first.text))
    case Assistant(c) => RawMessage("assistant", JString(c.first.text))
  }

  predicate SingleText(m: Message)
  {
    match m
    case User(c) => c.rest == []
    case Assistant(c) => c.rest == []
  }

  /** Every history of single-text messages, sent as records, is accepted
      back unchanged. */
  lemma {:induction false} HistoryRoundTrip(ms: seq<Message>)
    requires forall i :: 0 <= i < |ms| ==> SingleText(ms[i])
    ensures DeserializeMessages(seq(|ms|, i requires 0 <= i < |ms| => ToRaw(ms[i]))) == Ok(ms)
  {
    var raws := seq(|ms|, i requires 0 <= i < |ms| => ToRaw(ms[i]));
    if ms != [] {
      var tail := seq(|ms| - 1, i requires 0 <= i < |ms| - 1 => ToRaw(ms[1..][i]));
      assert raws[1..] == tail;
      HistoryRoundTrip(ms[1..]);
      assert DeserializeMessage(raws[0]) == Ok(ms[0]);
      assert [ms[0]] + ms[1..] == ms;
    }
  }

  // ---------------------------------------------------------------------
  // Streamed events
  // ---------------------------------------------------------------------

  /** `StreamResponse`: the events sent over the event stream. */
  datatype StreamResponse =
    | StreamMessage(text: string)
    | StreamToolCall(name: string, result: string)
    | StreamError(text: string)

  /** The variant name serde writes under `type`. */
  function Tag(r: StreamResponse): string
  {
    match r
    case StreamMessage(_) => "Message"
    case StreamToolCall(_, _) => "ToolCall"
    case StreamError(_) => "Error"
  }

  /** The adjacently tagged form: `{"type": <variant>, "content": <payload>}`,
      the payload of a tool call being `{"name": ..., "result": ...}`. */
  function ToJson(r: StreamResponse): (j: Json)
    ensures j.JObject? && j.fields.Keys == {"type", "content"}
    ensures j.fields["type"] == JString(Tag(r))
    ensures r.StreamMessage? || r.StreamError? ==> j.fields["content"] == JString(r.text)
    ensures r.StreamToolCall? ==>
              && j.fields["content"].JObject?
              && j.fields["content"].fields.Keys == {"name", "result"}
              && j.fields["content"].fields["name"] == JString(r.name)
              && j.fields["content"].fields["result"] == JString(r.result)
  {
    var content := match r
      case StreamMessage(text) => JString(text)
      case StreamToolCall(name, result) => JObject(map["name" := JString(name), "result" := JString(result)])
      case StreamError(text) => JString(text);
    JObject(map["type" := JString(Tag(r)), "content" := content])
  }

  /** Reading an event back: exactly the objects `ToJson` writes. */
  function FromJson(j: Json): (r: Option<StreamResponse>)
    ensures r.Some? ==> ToJson(r.value) == j
  {
    if !j.JObject? || j.fields.Keys != {"type", "content"} then None
    else
      var content := j.fields["content"];
      match j.fields["type"]
      case JString("Message") =>
        if content.JString? then
          assert j.fields == map["type" := JString("Message"), "content" := content];
          Some(StreamMessage(content.s))
        else None
      case JString("Error") =>
        if content.JString? then
          assert j.fields == map["type" := JString("Error"), "content" := content];
          Some(StreamError(content.s))
        else None
      case JString("ToolCall") =>
        if content.JObject? && content.fields.Keys == {"name", "result"}
           && content.fields["name"].JString? && content.fields["result"].JString? then
          var name := content.fields["name"].s;
          var result := content.fields["result"].s;
          assert content.fields == map["name" := JString(name), "result" := JString(result)];
          assert j.fields == map["type" := JString("ToolCall"), "content" := content];
          Some(StreamToolCall(name, result))
        else None
      case _ => None
  }

  /** Every event is read back as itself, so distinct events serialise differently. */
  lemma StreamResponseRoundTrip(r: StreamResponse)
    ensures FromJson(ToJson(r)) == Some(r)
  {
  }

  // ---------------------------------------------------------------------
  // Agent selection
  // ---------------------------------------------------------------------

  /** The crate features that compile the chain-specific agents in. */
  datatype Features = Features(solana: bool, evm: bool)

  datatype Agent = SolanaAgent | EvmAgent | CrossChainAgent

  /** Creating an agent: `Ok` or its error's text. */
  type AgentFactory = Agent -> Result<(), string>

  /** The agent chosen, or the single error event sent before the stream closes. */
  datatype Selection = Selected(agent: Agent) | Rejected(event: StreamResponse)

  /** The `chain` value that selects an agent. */
  function ChainName(a: Agent): string
  {
    match a
    case SolanaAgent => "solana"
    case EvmAgent => "evm"
    case CrossChainAgent => "omni"
  }

  /** Is the agent compiled in? */
  predicate Available(a: Agent, features: Features)
  {
    match a
    case SolanaAgent => features.solana
    case EvmAgent => features.evm
    case CrossChainAgent => true
  }

  function CreationFailure(a: Agent, e: string): string
  {
    match a
    case SolanaAgent => "Failed to create Solana agent: " + e
    case EvmAgent => "Failed to create EVM agent: " + e
    case CrossChainAgent => "Failed to create cross-chain agent: " + e
  }

  /** The `match request.chain.as_deref()` of `stream`. */
  function SelectAgent(chain: Option<string>, features: Features, create: AgentFactory): (s: Selection)
    ensures chain == None ==> s == Rejected(StreamError("Chain parameter is required"))
    ensures chain.Some? && (forall a :: !(ChainName(a) == chain.value && Available(a, features))) ==>
              s == Rejected(StreamError("Unsupported chain: " + chain.value))
    ensures forall a :: chain == Some(ChainName(a)) && Available(a, features) ==>
              s == (if create(a).Ok? then Selected(a) else Rejected(StreamError(CreationFailure(a, create(a).error))))
    ensures s.Selected? ==> chain == Some(ChainName(s.agent)) && Available(s.agent, features) && create(s.agent).Ok?
  {
    match chain
    case None => Rejected(StreamError("Chain parameter is required"))
    case Some(c) =>
      if c == "solana" && features.solana then
        assert ChainName(SolanaAgent) == c && Available(SolanaAgent, features);
        Create(SolanaAgent, create)
      else if c == "evm" && features.evm then
        assert ChainName(EvmAgent) == c && Available(EvmAgent, features);
        Create(EvmAgent, create)
      else if c == "omni" then
        assert ChainName(CrossChainAgent) == c && Available(CrossChainAgent, features);
        Create(CrossChainAgent, create)
      else
        assert forall a :: !(ChainName(a) == c && Available(a, features));
        Rejected(StreamError("Unsupported chain: " + c))
  }

  function Create(a: Agent, create: AgentFactory): Selection
  {
    match create(a)
    case Ok(_) => Selected(a)
    case Err(e) => Rejected(StreamError(CreationFailure(a, e)))
  }
}
