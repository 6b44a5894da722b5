/** The chat-conversational agent: tool validation, scratchpad, prompt layout and factory. */
module ChatConvo {
  import opened Wrappers
  import opened Strings
  import opened Schema
  import opened Prompts

  // ---------------------------------------------------------------------------------------
  // Fixed per-variant parameters
  // ---------------------------------------------------------------------------------------

  /** The text put in front of every tool result. */
  function ObservationPrefix(): (r: string)
    ensures |r| > 0 && r[|r| - 1] == ' '
    ensures r[..|r| - 1] == Stop()[0]
  {
    "Observation: "
  }

  /** The text put in front of the model's next turn. */
  function LlmPrefix(): string {
    "Thought:"
  }

  /** The stop sequences: a single one, which generation reaches before writing an observation. */
  function Stop(): seq<string> {
    ["Observation:"]
  }

  /**
   * The fixed parameters: the LLM prefix is "Thought:", the stop list holds only "Observation:",
   * and that stop sequence is a proper prefix of the observation prefix "Observation: ".
   */
  lemma VariantConstants()
    ensures LlmPrefix() == "Thought:"
    ensures Stop() == ["Observation:"] && ObservationPrefix() == "Observation: "
    ensures Stop()[0] < ObservationPrefix()
  {
  }

  // ---------------------------------------------------------------------------------------
  // Tool validation
  // ---------------------------------------------------------------------------------------

  /** The leading text of the missing-description message, before the tool's name. */
  const MessageHead: string := "Got a tool "

  /** The error thrown for a tool named `name` that has no description. */
  function MissingDescriptionMessage(name: string): string {
    MessageHead + name + " without a description." + " This agent requires descriptions for all tools."
  }

  /** The missing-description message names the offending tool right after its fixed head. */
  lemma MessageNamesTool(name: string)
    ensures MessageHead <= MissingDescriptionMessage(name)
    ensures MissingDescriptionMessage(name)[|MessageHead|..|MessageHead| + |name|] == name
  {
  }

  /** Distinct tool names give distinct messages, so the message determines the offender. */
  lemma MessageInjective(n1: string, n2: string)
    requires MissingDescriptionMessage(n1) == MissingDescriptionMessage(n2)
    ensures n1 == n2
  {
    MessageNamesTool(n1);
    MessageNamesTool(n2);
  }

  /** `tools.find(tool => !tool.description)`, as the position of the first tool without a description. */
  function FirstUndescribed(tools: seq<Tool>): (r: Option<nat>)
    ensures r.Some? ==> r.value < |tools| && !HasDescription(tools[r.value])
    ensures r.Some? ==> forall j :: 0 <= j < r.value ==> HasDescription(tools[j])
    ensures r.None? <==> forall j :: 0 <= j < |tools| ==> HasDescription(tools[j])
  {
    if |tools| == 0 then None
    else if !HasDescription(tools[0]) then Some(0)
    else
      var rest := FirstUndescribed(tools[1..]);
      assert forall j :: 1 <= j < |tools| ==> tools[j] == tools[1..][j - 1];
      match rest
      case None => None
      case Some(k) => Some(k + 1)
  }

  /** `validateTools`: throws, naming the first tool without a description, or passes silently. */
  function ValidateTools(tools: seq<Tool>): (r: Outcome<string>)
    ensures r.Fail? <==> exists i :: 0 <= i < |tools| && !HasDescription(tools[i])
    ensures r.Fail? ==> exists i :: 0 <= i < |tools| && !HasDescription(tools[i])
                          && (forall j :: 0 <= j < i ==> HasDescription(tools[j]))
                          && r.error == MissingDescriptionMessage(tools[i].name)
  {
    match FirstUndescribed(tools)
    case None => Pass
    case Some(i) => Fail(MissingDescriptionMessage(tools[i].name))
  }

  /** Validation looks only at descriptions up to the first offender: tools after it are irrelevant. */
  lemma {:induction false} ValidateIgnoresLaterTools(tools: seq<Tool>, more: seq<Tool>)
    requires ValidateTools(tools).Fail?
    ensures ValidateTools(tools + more) == ValidateTools(tools)
  {
    var i := FirstUndescribed(tools).value;
    var all := tools + more;
    assert all[i] == tools[i];
    assert forall j :: 0 <= j < i ==> all[j] == tools[j];
    FirstIsUnique(all, i);
  }

  /** A position whose tool lacks a description while all before it have one is the first offender. */
  lemma FirstIsUnique(tools: seq<Tool>, i: nat)
    requires i < |tools| && !HasDescription(tools[i])
    requires forall j :: 0 <= j < i ==> HasDescription(tools[j])
    ensures FirstUndescribed(tools) == Some(i)
  {
  }

  // ---------------------------------------------------------------------------------------
  // Scratchpad
  // ---------------------------------------------------------------------------------------

  /** The human message that reports a tool's answer, rendered from the tool-response template. */
  function ToolResponseMessage(observation: string): ChatMessage {
    HumanChatMessage(Rendered(Template(ToolResponse), [Binding("observation", Lit(observation))]))
  }

  /** The two messages one step contributes: the model's own text, then the tool's answer. */
  function StepMessages(step: AgentStep): seq<ChatMessage> {
    [AIChatMessage(Lit(step.action.log)), ToolResponseMessage(step.observation)]
  }

  /** The scratchpad of `steps`: each step's two messages, in step order. */
  function ScratchPad(steps: seq<AgentStep>): seq<ChatMessage>
    decreases |steps|
  {
    if |steps| == 0 then []
    else ScratchPad(steps[..|steps| - 1]) + StepMessages(steps[|steps| - 1])
  }

  /** The scratchpad has two messages per step: step `i`'s log at `2i`, its observation at `2i+1`. */
  lemma {:induction false} ScratchPadShape(steps: seq<AgentStep>)
    ensures |ScratchPad(steps)| == 2 * |steps|
    ensures forall i :: 0 <= i < |steps| ==>
              ScratchPad(steps)[2 * i] == AIChatMessage(Lit(steps[i].action.log))
              && ScratchPad(steps)[2 * i + 1] == ToolResponseMessage(steps[i].observation)
    decreases |steps|
  {
    if |steps| > 0 {
      var init := steps[..|steps| - 1];
      ScratchPadShape(init);
      assert forall i :: 0 <= i < |init| ==> init[i] == steps[i];
    }
  }

  /** `constructScratchPad`: pushes, for each step in order, its AI message and its human message. */
  method ConstructScratchPad(steps: seq<AgentStep>) returns (thoughts: seq<ChatMessage>)
    ensures |thoughts| == 2 * |steps|
    ensures forall i :: 0 <= i < |steps| ==> thoughts[2 * i] == AIChatMessage(Lit(steps[i].action.log))
    ensures forall i :: 0 <= i < |steps| ==> thoughts[2 * i + 1] == ToolResponseMessage(steps[i].observation)
    ensures thoughts == ScratchPad(steps)
  {
    thoughts := [];
    var i := 0;
    while i < |steps|
      invariant 0 <= i <= |steps|
      invariant |thoughts| == 2 * i
      invariant thoughts == ScratchPad(steps[..i])
    {
      var step := steps[i];
      thoughts := thoughts + [AIChatMessage(Lit(step.action.log))];
      thoughts := thoughts + [ToolResponseMessage(step.observation)];
      assert steps[..i + 1][..i] == steps[..i];
      i := i + 1;
    }
    assert steps[..i] == steps;
    ScratchPadShape(steps);
  }

  /** What can be read back from one step of a scratchpad. */
  datatype Exchange = Exchange(log: string, observation: string)

  /** The model text of an AI message holding plain text. */
  function LogOf(m: ChatMessage): Option<string> {
    if m.AIChatMessage? && m.content.Lit? then Some(m.content.s) else None
  }

  /** The observation of a human message rendered from the tool-response template. */
  function ObservationOf(m: ChatMessage): Option<string> {
    if m.HumanChatMessage? && m.content.Rendered? && m.content.template == Template(ToolResponse)
       && |m.content.bindings| == 1 && m.content.bindings[0].key == "observation"
       && m.content.bindings[0].value.Lit?
    then Some(m.content.bindings[0].value.s)
    else None
  }

  /**
   * Reads a scratchpad back into (log, observation) pairs; `None` when the messages do not
   * come in AI-message / tool-response pairs.
   */
  function ReadBack(thoughts: seq<ChatMessage>): Option<seq<Exchange>>
    decreases |thoughts|
  {
    if |thoughts| == 0 then Some([])
    else if |thoughts| == 1 then None
    else
      var log := LogOf(thoughts[|thoughts| - 2]);
      var obs := ObservationOf(thoughts[|thoughts| - 1]);
      match ReadBack(thoughts[..|thoughts| - 2])
      case None => None
      case Some(prev) =>
        if log.Some? && obs.Some? then Some(prev + [Exchange(log.value, obs.value)]) else None
  }

  /** The (log, observation) pairs of `steps`, in order. */
  function Exchanges(steps: seq<AgentStep>): (r: seq<Exchange>)
    ensures |r| == |steps|
  {
    seq(|steps|, i requires 0 <= i < |steps| => Exchange(steps[i].action.log, steps[i].observation))
  }

  /** Reading the scratchpad back gives each step's log, and the observation handed to the tool-response template, in order. */
  lemma {:induction false} ReadBackScratchPad(steps: seq<AgentStep>)
    ensures ReadBack(ScratchPad(steps)) == Some(Exchanges(steps))
    decreases |steps|
  {
    if |steps| > 0 {
      var init := steps[..|steps| - 1];
      var last := steps[|steps| - 1];
      var pad := ScratchPad(steps);
      assert pad == ScratchPad(init) + StepMessages(last);
      assert pad[..|pad| - 2] == ScratchPad(init);
      assert LogOf(pad[|pad| - 2]) == Some(last.action.log);
      assert ObservationOf(pad[|pad| - 1]) == Some(last.observation);
      ReadBackScratchPad(init);
      var ex := Exchanges(steps);
      assert ex[..|ex| - 1] == Exchanges(init);
      assert ex == ex[..|ex| - 1] + [Exchange(last.action.log, last.observation)];
    }
  }

  // ---------------------------------------------------------------------------------------
  // Prompt
  // ---------------------------------------------------------------------------------------

  /** The optional arguments of `createPrompt`. */
  datatype CreatePromptArgs = CreatePromptArgs(
    systemMessage: Option<string>,
    humanMessage: Option<string>,
    inputVariables: Option<seq<string>>,
    outputParser: Option<OutputParser>)

  /** The tool's line in the tool listing: its name, a colon and a space, its description. */
  function ToolLine(t: Tool): string {
    t.name + ": " + t.description
  }

  /** The tools' lines, in input order. */
  function ToolLines(tools: seq<Tool>): (r: seq<string>)
    ensures |r| == |tools|
  {
    seq(|tools|, i requires 0 <= i < |tools| => ToolLine(tools[i]))
  }

  /** The tools' names, in input order. */
  function ToolNameList(tools: seq<Tool>): (r: seq<string>)
    ensures |r| == |tools|
  {
    seq(|tools|, i requires 0 <= i < |tools| => tools[i].name)
  }

  /** The tool listing put into the prompt: the tools' lines joined by newlines. */
  function ToolStrings(tools: seq<Tool>): string {
    Join(ToolLines(tools), "\n")
  }

  /** The tool-name listing put into the prompt: the names joined by newlines. */
  function ToolNames(tools: seq<Tool>): string {
    Join(ToolNameList(tools), "\n")
  }

  /** No tool's name or description contains a line break. */
  predicate SingleLineTools(tools: seq<Tool>) {
    forall i :: 0 <= i < |tools| ==> '\n' !in tools[i].name && '\n' !in tools[i].description
  }

  /** Split at line breaks, the tool listing has one line per tool, `name: description`, in order. */
  lemma ToolStringsLines(tools: seq<Tool>)
    requires |tools| > 0 && SingleLineTools(tools)
    ensures Split(ToolStrings(tools), '\n') == ToolLines(tools)
    ensures forall i :: 0 <= i < |tools| ==>
              Split(ToolStrings(tools), '\n')[i] == tools[i].name + ": " + tools[i].description
  {
    var lines := ToolLines(tools);
    forall i | 0 <= i < |lines| ensures '\n' !in lines[i] {
      assert lines[i] == tools[i].name + ": " + tools[i].description;
    }
    SplitJoin(lines, '\n');
  }

  /** Split at line breaks, the tool-name listing has one line per tool, its name, in order. */
  lemma ToolNamesLines(tools: seq<Tool>)
    requires |tools| > 0
    requires forall i :: 0 <= i < |tools| ==> '\n' !in tools[i].name
    ensures |Split(ToolNames(tools), '\n')| == |tools|
    ensures forall i :: 0 <= i < |tools| ==> Split(ToolNames(tools), '\n')[i] == tools[i].name
  {
    SplitJoin(ToolNameList(tools), '\n');
  }

  /** With no tools, both listings are empty. */
  lemma NoToolsEmptyListings()
    ensures ToolStrings([]) == "" && ToolNames([]) == ""
  {
  }

  /** The system-message template: the caller's, or the fixed prefix. */
  function SystemText(args: Option<CreatePromptArgs>): Text {
    if args.Some? && args.value.systemMessage.Some? then Lit(args.value.systemMessage.value)
    else Template(Prefix)
  }

  /** The human-message template: the caller's, or the fixed suffix. */
  function HumanText(args: Option<CreatePromptArgs>): Text {
    if args.Some? && args.value.humanMessage.Some? then Lit(args.value.humanMessage.value)
    else Template(Suffix)
  }

  /** The parser whose format instructions go into the prompt: the caller's, or a fresh default one. */
  function PromptParser(args: Option<CreatePromptArgs>): OutputParser {
    if args.Some? && args.value.outputParser.Some? then args.value.outputParser.value
    else ConversationalParser
  }

  /**
   * `createPrompt`: four slots in the order system, chat history, human, scratchpad. The human
   * template is the human message with the parser's format instructions rendered in, and then the
   * tool listing and tool-name listing rendered in.
   */
  function CreatePrompt(tools: seq<Tool>, args: Option<CreatePromptArgs>): (p: ChatPrompt)
    ensures |p.messages| == 4
    ensures p.messages[0].SystemTemplate? && p.messages[0].template == SystemText(args)
    ensures p.messages[1] == MessagesPlaceholder("chat_history")
    ensures p.messages[2].HumanTemplate?
    ensures p.messages[2].template ==
              Rendered(Rendered(HumanText(args), [Binding("format_instructions", FormatInstructions(PromptParser(args)))]),
                       [Binding("tools", Lit(ToolStrings(tools))), Binding("tool_names", Lit(ToolNames(tools)))])
    ensures p.messages[3] == MessagesPlaceholder("agent_scratchpad")
  {
    var toolStrings := ToolStrings(tools);
    var formatInstructions :=
      Rendered(HumanText(args), [Binding("format_instructions", FormatInstructions(PromptParser(args)))]);
    var toolNames := ToolNames(tools);
    var finalPrompt := Rendered(formatInstructions, [Binding("tools", Lit(toolStrings)), Binding("tool_names", Lit(toolNames))]);
    ChatPrompt([
      SystemTemplate(SystemText(args)),
      MessagesPlaceholder("chat_history"),
      HumanTemplate(finalPrompt),
      MessagesPlaceholder("agent_scratchpad")
    ])
  }

  /** Omitted arguments, and arguments with every field omitted, both give the fixed prefix and suffix and the default parser. */
  lemma CreatePromptDefaults(tools: seq<Tool>, inputVariables: Option<seq<string>>)
    ensures CreatePrompt(tools, None) == CreatePrompt(tools, Some(CreatePromptArgs(None, None, inputVariables, None)))
    ensures CreatePrompt(tools, None).messages[0] == SystemTemplate(Template(Prefix))
    ensures CreatePrompt(tools, None).messages[2] ==
              HumanTemplate(Rendered(Rendered(Template(Suffix), [Binding("format_instructions", FormatInstructions(ConversationalParser))]),
                                     [Binding("tools", Lit(ToolStrings(tools))), Binding("tool_names", Lit(ToolNames(tools)))]))
  {
  }

  /** The prompt does not depend on `inputVariables`. */
  lemma CreatePromptIgnoresInputVariables(tools: seq<Tool>, a: CreatePromptArgs, vars: Option<seq<string>>)
    ensures CreatePrompt(tools, Some(a)) == CreatePrompt(tools, Some(a.(inputVariables := vars)))
  {
  }

  // ---------------------------------------------------------------------------------------
  // Agent construction
  // ---------------------------------------------------------------------------------------

  /** The chain that asks the model: prompt, model and callback manager. */
  datatype LLMChain = LLMChain(prompt: ChatPrompt, llm: LanguageModel, callbackManager: Option<CallbackManager>)

  /** What the constructor receives; the output parser may be left out. */
  datatype AgentInput = AgentInput(llmChain: LLMChain, outputParser: Option<OutputParser>, allowedTools: Option<seq<string>>)

  /** A constructed conversational agent: what it hands to the base agent. */
  datatype Agent = Agent(llmChain: LLMChain, outputParser: OutputParser, allowedTools: Option<seq<string>>)

  /** `getDefaultOutputParser`: a new conversational parser. */
  function DefaultOutputParser(): OutputParser {
    ConversationalParser
  }

  /** The default parser of the constructor and of the factory is the conversational one that the prompt also defaults to. */
  lemma DefaultParserIsConversational()
    ensures DefaultOutputParser() == ConversationalParser
    ensures DefaultOutputParser() == PromptParser(None)
  {
  }

  /** The constructor: keeps the chain and allowed tools, and uses the caller's parser or else the default one. */
  function NewAgent(input: AgentInput): (a: Agent)
    ensures a.llmChain == input.llmChain && a.allowedTools == input.allowedTools
    ensures input.outputParser.Some? ==> a.outputParser == input.outputParser.value
    ensures input.outputParser.None? ==> a.outputParser == ConversationalParser
  {
    Agent(input.llmChain, input.outputParser.GetOr(DefaultOutputParser()), input.allowedTools)
  }

  /** The optional arguments of `fromLLMAndTools`: the prompt's and the agent's. */
  datatype FromLLMAndToolsArgs = FromLLMAndToolsArgs(prompt: CreatePromptArgs, callbackManager: Option<CallbackManager>)

  /** The prompt part of the optional arguments. */
  function PromptArgs(args: Option<FromLLMAndToolsArgs>): Option<CreatePromptArgs> {
    if args.Some? then Some(args.value.prompt) else None
  }

  /**
   * `fromLLMAndTools`: validates the tools first and throws the validation error if any tool lacks
   * a description; otherwise builds the prompt and chain and an agent whose allowed tools are
   * the tool names in order.
   */
  function FromLLMAndTools(llm: LanguageModel, tools: seq<Tool>, args: Option<FromLLMAndToolsArgs>): (r: Result<Agent, string>)
    ensures r.Failure? <==> exists i :: 0 <= i < |tools| && !HasDescription(tools[i])
    ensures r.Failure? ==> ValidateTools(tools) == Fail(r.error)
    ensures r.Success? ==> r.value.allowedTools == Some(ToolNameList(tools))
    ensures r.Success? ==> r.value.llmChain.prompt == CreatePrompt(tools, PromptArgs(args))
    ensures r.Success? ==> r.value.llmChain.llm == llm
    ensures r.Success? ==> r.value.llmChain.callbackManager == (if args.Some? then args.value.callbackManager else None)
    ensures r.Success? ==> r.value.outputParser == PromptParser(PromptArgs(args))
  {
    match ValidateTools(tools)
    case Fail(msg) => Failure(msg)
    case Pass =>
      var prompt := CreatePrompt(tools, PromptArgs(args));
      var chain := LLMChain(prompt, llm, if args.Some? then args.value.callbackManager else None);
      var outputParser := if args.Some? && args.value.prompt.outputParser.Some? then args.value.prompt.outputParser.value
                          else DefaultOutputParser();
      Success(NewAgent(AgentInput(chain, Some(outputParser), Some(ToolNameList(tools)))))
  }

  /** The allowed tools of a built agent name exactly the given tools, one-for-one and in order. */
  lemma AllowedToolsAreToolNames(llm: LanguageModel, tools: seq<Tool>, args: Option<FromLLMAndToolsArgs>)
    requires FromLLMAndTools(llm, tools, args).Success?
    ensures |FromLLMAndTools(llm, tools, args).value.allowedTools.value| == |tools|
    ensures forall i :: 0 <= i < |tools| ==> FromLLMAndTools(llm, tools, args).value.allowedTools.value[i] == tools[i].name
  {
  }
}
