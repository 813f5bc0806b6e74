/**
 The SendMessage tool (src/tools/send_message.py): a message for a named
 sub-agent is answered by a direct call to that agent's chat model, and only
 if that call fails by a run of the agent's full graph. The chat-model call,
 the agent graph and Python's `str()` are parameters; what the tool calls is
 recorded so that routing can be stated.
 */
module SendMessageTool {
  import opened Values
  import Providers

  /** A sub-agent: its model identifier, temperature and system prompt. */
  datatype AgentDescriptor = Agent(model: string, temperature: Providers.Temperature, systemPrompt: string)

  datatype ChatMessage = SystemMessage(text: string) | HumanMessage(text: string)

  /** A call the tool makes into a collaborator. */
  datatype Call =
    | ChainInvoke(llm: Providers.Llm, prompt: seq<ChatMessage>)  // the direct model call
    | AgentInvoke(agent: AgentDescriptor, input: Value)           // the agent graph

  /** What a dispatch does: what it returns or raises, the environment it
      leaves, and the calls it made, in order. */
  datatype Dispatch = Dispatch(result: Outcome<Value>, env: Env, calls: seq<Call>)

  /** Oracles: the prompt-and-model chain, the agent graph, and `str()`. */
  type ChainOracle = (Providers.Llm, seq<ChatMessage>) -> Outcome<Value>
  type AgentOracle = (AgentDescriptor, Value) -> Outcome<Value>
  type StrOracle = Value -> string

  function InvalidRecipient(recipient: string): Value
  {
    Str("Invalid recipient: " + recipient)
  }

  /** The two-message prompt of the direct call. */
  function Prompt(agent: AgentDescriptor, message: string): seq<ChatMessage>
  {
    [SystemMessage(agent.systemPrompt), HumanMessage(message)]
  }

  /** The input of the fallback graph run: the message as a single user turn. */
  function FallbackInput(message: string): Value
  {
    Dict(map["messages" := List([Dict(map["role" := Str("user"), "content" := Str(message)])])])
  }

  /** `getattr(resp, "content", str(resp))`. */
  function ContentOr(resp: Value, str: StrOracle): Value
  {
    if HasContent(resp) then resp.content.value else Str(str(resp))
  }

  /** `response["messages"]`, with Python's errors for a missing key and for
      values that are not subscriptable by a string. */
  function MessagesOf(response: Value): Outcome<Value>
  {
    match response
    case Dict(d) => if "messages" in d then Returned(d["messages"]) else Raised(KeyError("messages"))
    case _ => Raised(TypeError)
  }

  /** `messages[-1]`: the last element of a list (or last character of a
      string), with Python's errors otherwise. */
  function LastOf(messages: Value): Outcome<Value>
  {
    match messages
    case List(items) => if items == [] then Raised(IndexError) else Returned(items[|items| - 1])
    case Str(s) => if s == "" then Raised(IndexError) else Returned(Str([s[|s| - 1]]))
    case Dict(_) => Raised(KeyError("-1"))
    case _ => Raised(TypeError)
  }

  /** `getattr(last, "content", last.get("content", str(last)))`: the default
      is evaluated first, so a last message without `get` raises even when it
      has a `content` attribute; only a dict gets through, and a dict has no
      `content` attribute, so the default is the answer. */
  function LastContent(last: Value, str: StrOracle): Outcome<Value>
  {
    if last.Dict? then
      Returned(if "content" in last.entries then last.entries["content"] else Str(str(last)))
    else Raised(AttributeError("get"))
  }

  /** Lines 35-36: the answer read from the graph's final state. */
  function FallbackReply(response: Value, str: StrOracle): Outcome<Value>
  {
    match MessagesOf(response)
    case Raised(e) => Raised(e)
    case Returned(messages) =>
      match LastOf(messages)
      case Raised(e) => Raised(e)
      case Returned(last) => LastContent(last, str)
  }

  /** `SendMessage.send_message(recipient, message)` over the agent mapping,
      the process environment and the collaborators. */
  function SendMessage(mapping: map<string, AgentDescriptor>, recipient: string, message: string, env: Env,
                       chain: ChainOracle, graph: AgentOracle, str: StrOracle): (d: Dispatch)
    // an unknown recipient is answered without any call
    ensures recipient !in mapping ==> d == Dispatch(Returned(InvalidRecipient(recipient)), env, [])
    ensures recipient in mapping ==>
      var agent := mapping[recipient];
      var llm := Providers.Resolve(agent.model, agent.temperature);
      // the environment changes only by the provider resolution of the agent's model
      && d.env == Providers.EnvAfter(agent.model, env)
      && 1 <= |d.calls| <= 2
      // the direct call is made exactly when the model resolves, first, with the agent's model and the two-message prompt
      && (llm.Returned? <==> d.calls[0].ChainInvoke?)
      && (llm.Returned? ==> d.calls[0] == ChainInvoke(llm.value, Prompt(agent, message)))
      // the graph runs, as the last call and with the message as one user turn, exactly when the direct path failed
      && (d.calls[|d.calls| - 1] == AgentInvoke(agent, FallbackInput(message)) <==>
            llm.Raised? || chain(llm.value, Prompt(agent, message)).Raised?)
      // an exception escapes only from the fallback path
      && (d.result.Raised? ==> d.calls[|d.calls| - 1].AgentInvoke?)
  {
    if recipient !in mapping then Dispatch(Returned(InvalidRecipient(recipient)), env, [])
    else
      var agent := mapping[recipient];
      var llm := Providers.Resolve(agent.model, agent.temperature);
      var env' := Providers.EnvAfter(agent.model, env);
      var prompt := Prompt(agent, message);
      var fastCalls := if llm.Returned? then [ChainInvoke(llm.value, prompt)] else [];
      var fast := if llm.Returned? then chain(llm.value, prompt) else Raised(llm.exc);
      if fast.Returned? then Dispatch(Returned(ContentOr(fast.value, str)), env', fastCalls)
      else
        var input := FallbackInput(message);
        var response := graph(agent, input);
        var result := if response.Raised? then Raised(response.exc) else FallbackReply(response.value, str);
        Dispatch(result, env', fastCalls + [AgentInvoke(agent, input)])
  }

  /** `SendMessage._run(recipient, message)`: exactly `send_message`. */
  function Run(mapping: map<string, AgentDescriptor>, recipient: string, message: string, env: Env,
               chain: ChainOracle, graph: AgentOracle, str: StrOracle): (d: Dispatch)
    ensures d == SendMessage(mapping, recipient, message, env, chain, graph, str)
  {
    SendMessage(mapping, recipient, message, env, chain, graph, str)
  }

  /** When the direct call answers, its `content` (or `str` of it) is
      returned and the agent graph is never run. */
  lemma FastPathAnswers(mapping: map<string, AgentDescriptor>, recipient: string, message: string, env: Env,
                        chain: ChainOracle, graph: AgentOracle, str: StrOracle, llm: Providers.Llm, reply: Value)
    requires recipient in mapping
    requires Providers.Resolve(mapping[recipient].model, mapping[recipient].temperature) == Returned(llm)
    requires chain(llm, Prompt(mapping[recipient], message)) == Returned(reply)
    ensures var d := SendMessage(mapping, recipient, message, env, chain, graph, str);
      d.result == Returned(ContentOr(reply, str)) &&
      d.calls == [ChainInvoke(llm, [SystemMessage(mapping[recipient].systemPrompt), HumanMessage(message)])]
  {
  }

  /** Any failure of the direct path, including an unsupported provider,
      runs the graph; its answer, or its exception, is what comes back. */
  lemma FallbackRuns(mapping: map<string, AgentDescriptor>, recipient: string, message: string, env: Env,
                     chain: ChainOracle, graph: AgentOracle, str: StrOracle)
    requires recipient in mapping
    requires var agent := mapping[recipient];
      var llm := Providers.Resolve(agent.model, agent.temperature);
      llm.Raised? || chain(llm.value, Prompt(agent, message)).Raised?
    ensures var agent := mapping[recipient];
      var d := SendMessage(mapping, recipient, message, env, chain, graph, str);
      var response := graph(agent, FallbackInput(message));
      d.result == (if response.Raised? then Raised(response.exc) else FallbackReply(response.value, str))
  {
  }

  /** An agent whose provider is unsupported is answered by the graph alone. */
  lemma {:induction false} UnsupportedProviderFallsBack(mapping: map<string, AgentDescriptor>, recipient: string,
                                    message: string, env: Env, chain: ChainOracle, graph: AgentOracle,
                                    str: StrOracle, provider: string, model: string)
    requires recipient in mapping && mapping[recipient].model == provider + "/" + model
    requires '/' !in provider && provider !in Providers.SupportedProviders
    ensures var d := SendMessage(mapping, recipient, message, env, chain, graph, str);
      d.calls == [AgentInvoke(mapping[recipient], FallbackInput(message))] && d.env == env
  {
    Providers.UnsupportedProvider(provider, model, mapping[recipient].temperature, env);
  }

  /** The graph's answer is the "content" of the last message of its state,
      or `str` of that message when it has no "content". */
  lemma FallbackReadsLastMessage(earlier: seq<Value>, last: map<string, Value>, rest: map<string, Value>,
                                 str: StrOracle)
    ensures "content" in last ==>
      FallbackReply(Dict(rest["messages" := List(earlier + [Dict(last)])]), str) == Returned(last["content"])
    ensures "content" !in last ==>
      FallbackReply(Dict(rest["messages" := List(earlier + [Dict(last)])]), str) == Returned(Str(str(Dict(last))))
  {
  }

  /** Errors in reading the graph's state are not caught: a missing
      "messages", an empty list, and a last message that is an object (even
      one with `content`, since the `get` default is evaluated first). */
  lemma FallbackErrorsEscape(d: map<string, Value>, earlier: seq<Value>, c: Option<Value>, str: StrOracle)
    ensures "messages" !in d ==> FallbackReply(Dict(d), str) == Raised(KeyError("messages"))
    ensures FallbackReply(Dict(d["messages" := List([])]), str) == Raised(IndexError)
    ensures FallbackReply(Dict(d["messages" := List(earlier + [Obj(c)])]), str) == Raised(AttributeError("get"))
  {
  }
}
