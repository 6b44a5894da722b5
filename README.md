# Chat-conversational agent set-up and executor initialization, in Dafny

This project models two deterministic pieces of a LangChain.js agents package:

- the **chat-conversational agent** (`langchain/src/agents/chat_convo/index.ts`): its fixed
  parameters (observation prefix, LLM prefix, stop sequences), tool validation, the scratchpad
  that replays earlier agent steps as alternating AI and human messages, the four-slot chat
  prompt with its tool listing and tool-name listing, the constructor's choice of output parser,
  and the `fromLLMAndTools` factory;
- **executor initialization** (`langchain/src/agents/initialize.ts`): `initializeAgentExecutor`
  and `initializeAgentExecutorWithOptions`, which map an agent-type tag and optional settings to
  an agent factory and the input handed to `AgentExecutor.fromAgentAndTools`, or to an error.

Thrown errors become `Result`/`Outcome` values (`wrappers.dfy`); omitted arguments and properties
are `Option.None`, and `??` is `GetOr`. Template rendering is not interpreted: a rendered text is
the symbolic term `Rendered(template, bindings)` (`prompts.dfy`), and the fixed templates
`PREFIX`, `SUFFIX` and `TEMPLATE_TOOL_RESPONSE` are the atoms `Template(Prefix)`,
`Template(Suffix)`, `Template(ToolResponse)`. A parser's format instructions are the atom
`FormatInstructions(parser)`. The zero-shot agent, the chat agent and the executor are not part of
this model; their factories are represented by records of the arguments they receive.
`getCallbackManager()` is the parameter `globalCallbackManager`.

`Strings.Split` is not in the source: it is a reference splitter used to state that the
newline-joined listings have one line per tool. `ChatConvo.ReadBack` is not in the source either:
it is a reference reader used to state that the scratchpad keeps each step's log, and the observation handed
to the tool-response template.

Files: `wrappers.dfy`, `strings.dfy`, `schema.dfy` (tools, agent steps, model and callback
handles), `prompts.dfy` (texts, messages, prompt slots), `chat_convo.dfy`, `initialize.dfy`.

Observations on the code:
- `createPrompt` reads only `systemMessage`, `humanMessage` and `outputParser` from its
  arguments. The documented `inputVariables` argument has no effect
  (`ChatConvo.CreatePromptIgnoresInputVariables`).
- `initializeAgentExecutorWithOptions` spreads the options object minus `agentArgs` into the
  executor's input. So the executor also receives the `agentType` tag, and for the two zero-shot
  tags it also receives any `memory` the caller put in the options. The model keeps both
  (`ExecutorInput.agentType`, `ExecutorInput.memory`).
- A conversational agent built by `initializeAgentExecutor` fails with the tool-validation error
  when a tool lacks a description. That error is never the "Unknown agent type" one
  (`Initialize.MessagesDiffer`).

## Model

| member | source | states |
|---|---|---|
| `ChatConvo.ObservationPrefix` | langchain/src/agents/chat_convo/index.ts:52-54 | the observation prefix is the stop sequence followed by one space |
| `ChatConvo.VariantConstants` | langchain/src/agents/chat_convo/index.ts:52-62 | the LLM prefix is "Thought:", the stop list is exactly ["Observation:"], and that stop sequence is a proper prefix of "Observation: ", so generation halts before an observation |
| `ChatConvo.FirstUndescribed` | langchain/src/agents/chat_convo/index.ts:65 | `find` yields the position of a tool with an empty description that has only described tools before it, and nothing exactly when every tool is described |
| `ChatConvo.ValidateTools` | langchain/src/agents/chat_convo/index.ts:64-72 | fails if and only if some tool has an empty description; the error is the message for the first such tool in list order |
| `ChatConvo.FirstIsUnique` | langchain/src/agents/chat_convo/index.ts:65 | the first offender is unique: any undescribed position with only described tools before it is the one `find` returns |
| `ChatConvo.ValidateIgnoresLaterTools` | langchain/src/agents/chat_convo/index.ts:65-71 | once a list fails validation, appending tools does not change the error |
| `ChatConvo.MessageNamesTool` | langchain/src/agents/chat_convo/index.ts:67-69 | the error message starts with "Got a tool " followed by the offending tool's name |
| `ChatConvo.MessageInjective` | langchain/src/agents/chat_convo/index.ts:67-70 | different tool names give different error messages, so the message identifies the offender |
| `ChatConvo.ConstructScratchPad` | langchain/src/agents/chat_convo/index.ts:74-87 | returns exactly 2·|steps| messages (none for no steps); message 2i is an AI message holding step i's log, message 2i+1 the tool-response rendering of step i's observation |
| `ChatConvo.ScratchPadShape` | langchain/src/agents/chat_convo/index.ts:76-85 | the scratchpad specification has length 2·|steps| and holds step i's two messages at 2i and 2i+1, in step order |
| `ChatConvo.ReadBackScratchPad` | langchain/src/agents/chat_convo/index.ts:74-87 | reading the scratchpad back gives each step's log, and the observation handed to the tool-response template, verbatim and in order |
| `Strings.SplitJoin` | langchain/src/agents/chat_convo/index.ts:107-109 | a non-empty list of lines joined by "\n" and split at "\n" gives the lines back when none contains "\n" |
| `ChatConvo.ToolStringsLines` | langchain/src/agents/chat_convo/index.ts:107-109 | when the tool list is non-empty and no tool name or description contains a line break, the tool listing has one line per tool, `name + ": " + description`, in input order |
| `ChatConvo.ToolNamesLines` | langchain/src/agents/chat_convo/index.ts:113 | when the tool list is non-empty and no tool name contains a line break, the tool-name listing has one line per tool, its name, in input order |
| `ChatConvo.NoToolsEmptyListings` | langchain/src/agents/chat_convo/index.ts:107-113 | with no tools both listings are the empty string |
| `ChatConvo.CreatePrompt` | langchain/src/agents/chat_convo/index.ts:101-125 | exactly four slots: system template, `chat_history` placeholder, human template, `agent_scratchpad` placeholder; the human template renders the format instructions into the human message, then the tool listing and tool names into that |
| `ChatConvo.CreatePromptDefaults` | langchain/src/agents/chat_convo/index.ts:102-106 | omitted arguments give the fixed prefix as system message, the fixed suffix as human message and the default conversational parser's format instructions |
| `ChatConvo.CreatePromptIgnoresInputVariables` | langchain/src/agents/chat_convo/index.ts:102-106 | the prompt is the same whatever `inputVariables` holds |
| `ChatConvo.DefaultParserIsConversational` | langchain/src/agents/chat_convo/index.ts:89-91 | `getDefaultOutputParser` gives the conversational output parser, the same kind `createPrompt` falls back to |
| `ChatConvo.NewAgent` | langchain/src/agents/chat_convo/index.ts:41-45 | the constructor uses the caller's output parser when one is given and the default conversational parser otherwise |
| `ChatConvo.FromLLMAndTools` | langchain/src/agents/chat_convo/index.ts:127-147 | fails with the validation error if and only if a tool lacks a description; on success the chain asks the given model with `createPrompt`'s prompt and the given callback manager, the parser is the caller's or the default, and the allowed tools are the tool names in order |
| `ChatConvo.AllowedToolsAreToolNames` | langchain/src/agents/chat_convo/index.ts:145 | a built agent's allowed tools are one name per tool, position by position |
| `Initialize.ParseAgentType` | langchain/src/agents/initialize.ts:25-51 | exactly the three known tags are recognised, each as the variant it names |
| `Initialize.ParseTag` | langchain/src/agents/initialize.ts:10-13 | each variant's own tag is recognised as that variant |
| `Initialize.EffectiveTag` | langchain/src/agents/initialize.ts:22 | an absent tag becomes "zero-shot-react-description"; a given one is kept |
| `Initialize.EffectiveVerbose` | langchain/src/agents/initialize.ts:23 | the given flag when there is one; otherwise true exactly when a callback manager was given |
| `Initialize.MessagesDiffer` | langchain/src/agents/initialize.ts:49-50 | a missing-description error never equals "Unknown agent type" |
| `Initialize.InitializeAgentExecutor` | langchain/src/agents/initialize.ts:15-52 | fails with "Unknown agent type" exactly for an unknown tag, and with the validation error exactly for the conversational tag with an undescribed tool; otherwise the named factory gets only the model and tools; `returnIntermediateSteps` is on for the two zero-shot variants only; `verbose` is inferred; the callback manager is the given or the global one; an absent tag yields a zero-shot agent |
| `Initialize.DefaultOptions` | langchain/src/agents/initialize.ts:80-85 | without options the tag is the chat zero-shot one for a "base_chat_model" model and the zero-shot one otherwise |
| `Initialize.InitializeAgentExecutorWithOptions` | langchain/src/agents/initialize.ts:77-124 | fails with "Unknown agent type" exactly for an unknown tag, and with the validation error otherwise (conversational tag and an undescribed tool); the same tools go to the factory and the executor; `agentArgs` goes only to the factory; every other option, the tag included, reaches the executor unchanged; the conversational variant keeps a given memory and otherwise gets the default buffer memory; with options omitted the executor gets only the default tag, no memory and no other settings, and the factory gets no agent arguments |
| `Initialize.OmittedOptionsAreDefault` | langchain/src/agents/initialize.ts:80-85 | omitting the options behaves exactly as passing the default options object `{agentType}` |
| `Initialize.DefaultMemorySettings` | langchain/src/agents/initialize.ts:111-115 | the default memory returns messages, stores under "chat_history" and reads "input" |
| `Initialize.InitializersAgree` | langchain/src/agents/initialize.ts:15-124 | the positional initializer equals the options one given the tag, forced intermediate steps, inferred verbosity and callback manager, except that it does not forward the tag and gives no default memory |

## Left out

- The output parser (`outputParser.js`) and its format instructions: not part of this model; a parser is an opaque value and its instructions an opaque text.
- `renderTemplate` and the wording of `PREFIX`, `SUFFIX` and `TEMPLATE_TOOL_RESPONSE` (`prompt.js`): not part of this model; rendering is kept symbolic.
- The internals of `ChatPromptTemplate`, `MessagesPlaceholder` and the message-template classes: represented as tagged slot records.
- `LLMChain` and the model call: the chain is a record of its prompt, model and callback manager; nothing is called.
- `ZeroShotAgent.fromLLMAndTools`, `ChatAgent.fromLLMAndTools` and `AgentExecutor.fromAgentAndTools`: not part of this model. They are taken to succeed and are recorded by their arguments, so any validation they do is not captured.
- The executor loop, tool invocation and iteration limits (`executor.js`): not part of this model.
- `BufferMemory` storage, the callback manager and `getCallbackManager()`: external collaborators. The global callback manager is a parameter.
- The `async`/`Promise` wrapper of both initializers: the logic inside is synchronous.
- `_agentType`: it only throws "Method not implemented.", so there is no behaviour to model.
- Object identity: `createPrompt` and `fromLLMAndTools` each create their own default parser. The model has one default parser value, so it cannot tell the two instances apart.
- ChatConvo.ReadBackScratchPad: the observation is read back from the symbolic rendering. Whether the rendered text itself keeps the observation depends on `TEMPLATE_TOOL_RESPONSE` and `renderTemplate`, which are not part of this model.
- ChatConvo.ToolStringsLines: stated only for tools whose names and descriptions have no line break. Validation accepts a description with a line break, and then the listing has more lines than tools.
- ChatConvo.ToolNamesLines: stated only for tools whose names have no line break; a name with one gives the name listing more lines than tools.
- Tool descriptions are strings, and falsy means empty. An `undefined` or `null` description, which the declared type rules out, is not represented.
- `AgentArgs`: one record type (prompt arguments plus callback manager) stands for the agent arguments of all three factories. The executor settings are the fields these files use or that are commonly passed (`returnIntermediateSteps`, `maxIterations`, `earlyStoppingMethod`, `verbose`, `callbackManager`), because the executor's input type is not part of this model. Options that would override `agent` or `tools` through the spread, which the declared types forbid, are not represented.
