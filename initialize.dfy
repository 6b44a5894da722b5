/**
 * Executor initialization: maps an agent-type tag and optional settings to the agent factory
 * used and the configuration handed to the executor, or to an error.
 */
module Initialize {
  import opened Wrappers
  import opened Schema
  import ChatConvo

  // ---------------------------------------------------------------------------------------
  // Agent-type tags
  // ---------------------------------------------------------------------------------------

  const ZeroShotTag: string := "zero-shot-react-description"
  const ChatZeroShotTag: string := "chat-zero-shot-react-description"
  const ChatConversationalTag: string := "chat-conversational-react-description"

  /** The error thrown for a tag outside the three known ones. */
  const UnknownAgentTypeMessage: string := "Unknown agent type"

  /** The model type that selects the chat zero-shot agent by default. */
  const BaseChatModelType: string := "base_chat_model"

  /** The three known agent variants. */
  datatype AgentKind = ZeroShot | ChatZeroShot | ChatConversational

  /** The tag naming a variant. */
  function Tag(k: AgentKind): string {
    match k
    case ZeroShot => ZeroShotTag
    case ChatZeroShot => ChatZeroShotTag
    case ChatConversational => ChatConversationalTag
  }

  /** The `switch` on the tag: the variant it names, or `None` for the `default` branch. */
  function ParseAgentType(tag: string): (k: Option<AgentKind>)
    ensures k.Some? <==> tag == ZeroShotTag || tag == ChatZeroShotTag || tag == ChatConversationalTag
    ensures k.Some? ==> Tag(k.value) == tag
  {
    if tag == ZeroShotTag then Some(ZeroShot)
    else if tag == ChatZeroShotTag then Some(ChatZeroShot)
    else if tag == ChatConversationalTag then Some(ChatConversational)
    else None
  }

  /** Every variant's tag is recognised as that variant. */
  lemma ParseTag(k: AgentKind)
    ensures ParseAgentType(Tag(k)) == Some(k)
  {
  }

  // ---------------------------------------------------------------------------------------
  // Agents, memory, executor configuration
  // ---------------------------------------------------------------------------------------

  /** The agent-specific arguments forwarded to an agent factory. */
  type AgentArgs = ChatConvo.FromLLMAndToolsArgs

  /**
   * The agent a factory produced. The zero-shot and chat factories are not part of this model,
   * so their agents are recorded by the arguments they were built from.
   */
  datatype AgentValue =
    | ZeroShotAgent(llm: LanguageModel, tools: seq<Tool>, args: Option<AgentArgs>)
    | ChatAgent(llm: LanguageModel, tools: seq<Tool>, args: Option<AgentArgs>)
    | ConversationalAgent(agent: ChatConvo.Agent)

  /** The variant of an agent. */
  function KindOf(a: AgentValue): AgentKind {
    match a
    case ZeroShotAgent(_, _, _) => ZeroShot
    case ChatAgent(_, _, _) => ChatZeroShot
    case ConversationalAgent(_) => ChatConversational
  }

  /**
   * The agent was built by its factory from `llm` and `tools`: the opaque ones received them;
   * the conversational one asks `llm` with a prompt listing `tools` and allows exactly their names.
   */
  ghost predicate BuiltFrom(a: AgentValue, llm: LanguageModel, tools: seq<Tool>) {
    match a
    case ZeroShotAgent(m, ts, _) => m == llm && ts == tools
    case ChatAgent(m, ts, _) => m == llm && ts == tools
    case ConversationalAgent(c) =>
      c.llmChain.llm == llm && c.allowedTools == Some(ChatConvo.ToolNameList(tools))
      && exists pa :: c.llmChain.prompt == ChatConvo.CreatePrompt(tools, pa)
  }

  /** A conversational memory: one supplied by the caller, or a buffer memory with its settings. */
  datatype Memory =
    | CallerMemory(id: nat)
    | BufferMemory(returnMessages: bool, memoryKey: string, inputKey: string)

  /** The memory used by the conversational variant when the caller gives none. */
  const DefaultMemory: Memory := BufferMemory(true, "chat_history", "input")

  /** Executor settings that the initializers set or pass through unchanged. */
  datatype ExecutorSettings = ExecutorSettings(
    returnIntermediateSteps: Option<bool>,
    maxIterations: Option<int>,
    earlyStoppingMethod: Option<string>,
    verbose: Option<bool>,
    callbackManager: Option<CallbackManager>)

  /** No settings given. */
  const NoSettings: ExecutorSettings := ExecutorSettings(None, None, None, None, None)

  /**
   * What `AgentExecutor.fromAgentAndTools` receives. `agentType` is present when the caller's
   * options object, tag included, was spread into it.
   */
  datatype ExecutorInput = ExecutorInput(
    agent: AgentValue,
    tools: seq<Tool>,
    agentType: Option<string>,
    memory: Option<Memory>,
    settings: ExecutorSettings)

  // ---------------------------------------------------------------------------------------
  // initializeAgentExecutor
  // ---------------------------------------------------------------------------------------

  /** The tag used: the given one, or the zero-shot tag. */
  function EffectiveTag(agentType: Option<string>): (t: string)
    ensures agentType.None? ==> t == ZeroShotTag
    ensures agentType.Some? ==> t == agentType.value
  {
    agentType.GetOr(ZeroShotTag)
  }

  /** The verbosity used: the given flag, or whether a callback manager was given. */
  function EffectiveVerbose(verbose: Option<bool>, callbackManager: Option<CallbackManager>): (v: bool)
    ensures verbose.Some? ==> v == verbose.value
    ensures verbose.None? ==> (v <==> callbackManager.Some?)
  {
    verbose.GetOr(callbackManager.Some?)
  }

  /** A missing-description error is never the unknown-type error. */
  lemma MessagesDiffer(name: string)
    ensures ChatConvo.MissingDescriptionMessage(name) != UnknownAgentTypeMessage
  {
  }

  /**
   * `initializeAgentExecutor`: picks the factory by the tag (zero-shot by default), forces
   * `returnIntermediateSteps` on for the two zero-shot variants, infers `verbose`, and uses the
   * given callback manager or else `globalCallbackManager`, the result of `getCallbackManager()`.
   */
  function InitializeAgentExecutor(
    tools: seq<Tool>, llm: LanguageModel, agentType: Option<string>, verbose: Option<bool>,
    callbackManager: Option<CallbackManager>, globalCallbackManager: CallbackManager): (r: Result<ExecutorInput, string>)
    ensures r == Failure(UnknownAgentTypeMessage) <==> ParseAgentType(EffectiveTag(agentType)).None?
    ensures r.Failure? && r.error != UnknownAgentTypeMessage <==>
              ParseAgentType(EffectiveTag(agentType)) == Some(ChatConversational)
              && exists i :: 0 <= i < |tools| && !HasDescription(tools[i])
    ensures r.Failure? && r.error != UnknownAgentTypeMessage ==> ChatConvo.ValidateTools(tools) == Fail(r.error)
    ensures r.Success? ==> Some(KindOf(r.value.agent)) == ParseAgentType(EffectiveTag(agentType))
    ensures r.Success? ==> BuiltFrom(r.value.agent, llm, tools) && r.value.tools == tools
    ensures r.Success? ==>
              r.value.settings.returnIntermediateSteps == (if KindOf(r.value.agent) == ChatConversational then None else Some(true))
    ensures r.Success? ==> r.value.settings.verbose == Some(EffectiveVerbose(verbose, callbackManager))
    ensures r.Success? ==> r.value.settings.callbackManager == Some(callbackManager.GetOr(globalCallbackManager))
    ensures r.Success? ==> r.value.settings.maxIterations.None? && r.value.settings.earlyStoppingMethod.None?
    ensures r.Success? ==> r.value.memory.None? && r.value.agentType.None?
    ensures r.Success? && KindOf(r.value.agent) == ChatConversational ==>
              r.value.agent == ConversationalAgent(ChatConvo.FromLLMAndTools(llm, tools, None).value)
    ensures r.Success? && KindOf(r.value.agent) != ChatConversational ==> r.value.agent.args.None?
    ensures agentType.None? ==> r.Success? && KindOf(r.value.agent) == ZeroShot
  {
    var tag := EffectiveTag(agentType);
    var v := EffectiveVerbose(verbose, callbackManager);
    var cm := callbackManager.GetOr(globalCallbackManager);
    match ParseAgentType(tag)
    case None => Failure(UnknownAgentTypeMessage)
    case Some(ZeroShot) =>
      Success(ExecutorInput(ZeroShotAgent(llm, tools, None), tools, None, None,
                            ExecutorSettings(Some(true), None, None, Some(v), Some(cm))))
    case Some(ChatZeroShot) =>
      Success(ExecutorInput(ChatAgent(llm, tools, None), tools, None, None,
                            ExecutorSettings(Some(true), None, None, Some(v), Some(cm))))
    case Some(ChatConversational) =>
      match ChatConvo.FromLLMAndTools(llm, tools, None)
      case Failure(e) => Failure(e)
      case Success(a) =>
        Success(ExecutorInput(ConversationalAgent(a), tools, None, None,
                              ExecutorSettings(None, None, None, Some(v), Some(cm))))
  }

  // ---------------------------------------------------------------------------------------
  // initializeAgentExecutorWithOptions
  // ---------------------------------------------------------------------------------------

  /** The options object: the tag, the agent's arguments, a memory, and the executor's other settings. */
  datatype ExecutorOptions = ExecutorOptions(
    agentType: string,
    agentArgs: Option<AgentArgs>,
    memory: Option<Memory>,
    rest: ExecutorSettings)

  /** The options used when none are given: only a tag, chosen by the kind of model. */
  function DefaultOptions(llm: LanguageModel): (o: ExecutorOptions)
    ensures ParseAgentType(o.agentType) == Some(if llm.modelType == BaseChatModelType then ChatZeroShot else ZeroShot)
    ensures o.agentArgs.None? && o.memory.None? && o.rest == NoSettings
  {
    ExecutorOptions(if llm.modelType == BaseChatModelType then ChatZeroShotTag else ZeroShotTag, None, None, NoSettings)
  }

  /**
   * `initializeAgentExecutorWithOptions`: the agent's arguments go to the factory only; the
   * remaining options, tag included, are spread into the executor's input unchanged; the
   * conversational variant gets the caller's memory or a default buffer memory.
   */
  function InitializeAgentExecutorWithOptions(tools: seq<Tool>, llm: LanguageModel, options: Option<ExecutorOptions>)
    : (r: Result<ExecutorInput, string>)
    ensures r == Failure(UnknownAgentTypeMessage) <==>
              options.Some? && ParseAgentType(options.value.agentType).None?
    ensures options.None? ==>
              r.Success? && KindOf(r.value.agent) == (if llm.modelType == BaseChatModelType then ChatZeroShot else ZeroShot)
    ensures options.None? ==> r.value.agentType == Some(DefaultOptions(llm).agentType) && r.value.memory.None?
    ensures options.None? ==> r.value.settings == NoSettings
    ensures options.None? && KindOf(r.value.agent) != ChatConversational ==> r.value.agent.args.None?
    ensures options.Some? ==> (r.Failure? && r.error != UnknownAgentTypeMessage <==>
              ParseAgentType(options.value.agentType) == Some(ChatConversational)
              && exists i :: 0 <= i < |tools| && !HasDescription(tools[i]))
    ensures r.Failure? && r.error != UnknownAgentTypeMessage ==> ChatConvo.ValidateTools(tools) == Fail(r.error)
    ensures r.Success? ==> BuiltFrom(r.value.agent, llm, tools) && r.value.tools == tools
    ensures r.Success? && options.Some? ==>
              Some(KindOf(r.value.agent)) == ParseAgentType(options.value.agentType)
              && r.value.agentType == Some(options.value.agentType)
              && r.value.settings == options.value.rest
    ensures r.Success? && options.Some? && KindOf(r.value.agent) != ChatConversational ==>
              r.value.agent.args == options.value.agentArgs && r.value.memory == options.value.memory
    ensures r.Success? && options.Some? && KindOf(r.value.agent) == ChatConversational ==>
              r.value.memory == Some(if options.value.memory.Some? then options.value.memory.value else DefaultMemory)
              && r.value.agent == ConversationalAgent(ChatConvo.FromLLMAndTools(llm, tools, options.value.agentArgs).value)
  {
    var opts := options.GetOr(DefaultOptions(llm));
    match ParseAgentType(opts.agentType)
    case None => Failure(UnknownAgentTypeMessage)
    case Some(ZeroShot) =>
      Success(ExecutorInput(ZeroShotAgent(llm, tools, opts.agentArgs), tools, Some(opts.agentType), opts.memory, opts.rest))
    case Some(ChatZeroShot) =>
      Success(ExecutorInput(ChatAgent(llm, tools, opts.agentArgs), tools, Some(opts.agentType), opts.memory, opts.rest))
    case Some(ChatConversational) =>
      match ChatConvo.FromLLMAndTools(llm, tools, opts.agentArgs)
      case Failure(e) => Failure(e)
      case Success(a) =>
        Success(ExecutorInput(ConversationalAgent(a), tools, Some(opts.agentType),
                              Some(opts.memory.GetOr(DefaultMemory)), opts.rest))
  }

  /** Omitting the options is the same as passing the default options object. */
  lemma OmittedOptionsAreDefault(tools: seq<Tool>, llm: LanguageModel)
    ensures InitializeAgentExecutorWithOptions(tools, llm, None)
            == InitializeAgentExecutorWithOptions(tools, llm, Some(DefaultOptions(llm)))
  {
  }

  /** The default buffer memory returns messages, under the key "chat_history", reading the "input" key. */
  lemma DefaultMemorySettings()
    ensures DefaultMemory.BufferMemory? && DefaultMemory.returnMessages
    ensures DefaultMemory.memoryKey == "chat_history" && DefaultMemory.inputKey == "input"
  {
  }

  /**
   * The two initializers agree: the positional one acts as the options one given the tag,
   * `returnIntermediateSteps` on for the zero-shot variants, the inferred verbosity and the
   * callback manager, except that it does not forward the tag and gives the conversational
   * variant no default memory.
   */
  lemma InitializersAgree(
    tools: seq<Tool>, llm: LanguageModel, tag: string, verbose: Option<bool>,
    callbackManager: Option<CallbackManager>, globalCallbackManager: CallbackManager)
    ensures
      var legacy := InitializeAgentExecutor(tools, llm, Some(tag), verbose, callbackManager, globalCallbackManager);
      var rest := ExecutorSettings(if tag == ChatConversationalTag then None else Some(true), None, None,
                                   Some(EffectiveVerbose(verbose, callbackManager)),
                                   Some(callbackManager.GetOr(globalCallbackManager)));
      var modern := InitializeAgentExecutorWithOptions(tools, llm, Some(ExecutorOptions(tag, None, None, rest)));
      legacy.Failure? == modern.Failure?
      && (legacy.Failure? ==> legacy.error == modern.error)
      && (legacy.Success? ==> legacy.value == modern.value.(agentType := None, memory := None))
  {
  }
}
