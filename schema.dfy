/** The records the agents exchange: tools, agent steps, language-model and callback handles. */
module Schema {

  /** A tool as the agent sees it: its name and the description shown to the model. */
  datatype Tool = Tool(name: string, description: string)

  /** A tool's description is truthy exactly when it is a non-empty string. */
  predicate HasDescription(t: Tool) {
    |t.description| > 0
  }

  /** A decision to call `tool` on `toolInput`; `log` is the model text that produced it. */
  datatype AgentAction = AgentAction(tool: string, toolInput: string, log: string)

  /** One completed iteration: the action taken and the tool's answer. */
  datatype AgentStep = AgentStep(action: AgentAction, observation: string)

  /** An opaque language-model handle; `modelType` is what its `_modelType()` reports. */
  datatype LanguageModel = LanguageModel(id: nat, modelType: string)

  /** An opaque callback-manager handle. */
  datatype CallbackManager = CallbackManager(id: nat)
}
