/** The classify-then-dispatch workflow behind the chat endpoint: every run
    appends the user's text to a conversation history that outlives the
    run, asks a classifier agent for a category, and hands the history to
    the one specialist agent that category names. */
module Workflow {
  import opened Wrappers

  // ---------------------------------------------------------------------
  // Conversation items
  // ---------------------------------------------------------------------

  datatype Role = User | Assistant | System

  datatype ContentPart = InputText(text: string) | OutputText(text: string)

  /** An item of the conversation history: a message, or any other item the
      agent runtime produces (tool calls, tool results, reasoning), kept
      opaque. */
  datatype Item =
    | Message(role: Role, content: seq<ContentPart>)
    | RuntimeItem(kind: string, data: string)

  /** The item a run appends for the user's text: role "user", one
      input_text part. */
  function UserItem(text: string): Item
  {
    Message(User, [InputText(text)])
  }

  /** The user text an item records, when it is a user message made of a
      single input_text part. */
  function UserText(it: Item): Option<string> {
    if it.Message? && it.role == User && |it.content| == 1 && it.content[0].InputText?
    then Some(it.content[0].text)
    else None
  }

  /** The user item records exactly the user's text: reading it back gives
      the text, and it is the only item that reads back to that text. */
  lemma UserItemRecordsText(text: string, it: Item)
    ensures UserText(UserItem(text)) == Some(text)
    ensures UserText(it) == Some(text) ==> it == UserItem(text)
  {
  }

  /** The argument of runWorkflow. */
  datatype WorkflowInput = WorkflowInput(inputAsText: string, workflowId: string, zapierToken: string)

  // ---------------------------------------------------------------------
  // Agents and their tool bindings
  // ---------------------------------------------------------------------

  datatype ApprovalPolicy = Never | Always

  /** A hosted MCP server an agent may call. */
  datatype HostedMcpTool = HostedMcpTool(
    serverLabel: string,
    allowedTools: seq<string>,
    authorization: Option<string>,
    requireApproval: ApprovalPolicy,
    serverUrl: string)

  datatype ModelSettings = ModelSettings(
    temperature: Option<real>,
    topP: Option<real>,
    maxTokens: Option<nat>,
    store: bool,
    reasoningEffort: Option<string>)

  /** What an agent's final output is: free text, or an object whose
      category field is one of the listed strings. */
  datatype OutputType = PlainText | CategoryObject(categories: seq<string>)

  datatype Agent = Agent(
    name: string,
    instructions: string,
    model: string,
    tools: seq<HostedMcpTool>,
    modelSettings: ModelSettings,
    outputType: OutputType)

  /** The Zapier binding of the LinkedIn publisher, authorised with the
      caller's token. */
  function ZapierTool(zapierToken: string): HostedMcpTool {
    HostedMcpTool("zapier", ["add_tools", "edit_tools", "linkedin_create_share_update"],
                  Some(zapierToken), Never, "https://mcp.zapier.com/api/mcp/mcp")
  }

  const FirecrawlTool: HostedMcpTool :=
    HostedMcpTool("test",
                  ["firecrawl_scrape", "firecrawl_map", "firecrawl_search", "firecrawl_crawl",
                   "firecrawl_check_crawl_status", "firecrawl_extract"],
                  None, Never, "https://mcp.firecrawl.dev/<key>/v2/mcp")

  const ImageTool: HostedMcpTool :=
    HostedMcpTool("test", ["generate_and_upload_image"], None, Never,
                  "https://vitreous-coffee-hookworm.fastmcp.app/mcp")

  const AudioTool: HostedMcpTool :=
    HostedMcpTool("test", ["generate_podcast_audio"], None, Never,
                  "https://vitreous-coffee-hookworm.fastmcp.app/mcp")

  /** The settings every specialist shares. */
  const SpecialistSettings: ModelSettings := ModelSettings(Some(1.0), Some(1.0), Some(2048), true, None)

  const ClassifierSettings: ModelSettings := ModelSettings(None, None, None, true, Some("medium"))

  /** The five categories the classifier may answer, in the order of its
      instructions. */
  const Categories: seq<string> := ["linkedin", "scrapping", "images", "podcast", "general"]

  const ClassifierInstructions: string :=
    "Tu es un spécialiste de la classification des demandes des utilisateurs\n"
    + "      1-la demande du client est en relation avec la publication Linkedin ,tu Donnes en output \"linkedin\"\n"
    + "      2-la demande du client est en relation avec la le Scrapping du Web ,tu Donnes en output \"scrapping\"\n"
    + "      3-la demande du client est en relation avec la la génération d'images ,d'illustrations ou de logos  ,alors tu Donnes en output \"images\".\n"
    + "      4-la demande du client est en relation avec la la création d'un Podcast ,alors tu Donnes en output \"podcast\".\n"
    + "      5-la demande du client est d'ordres general lors tu Donnes en output \"general\"."

  /** The classifier ("Orchestrateur ", with its trailing space). */
  const Orchestrateur: Agent :=
    Agent("Orchestrateur ", ClassifierInstructions, "o1", [], ClassifierSettings, CategoryObject(Categories))

  function LinkedinPublisher(zapierToken: string): Agent {
    Agent("Linkedin publisher", "Tu es un specialiste Linkedin", "gpt-4.1",
          [ZapierTool(zapierToken)], SpecialistSettings, PlainText)
  }

  const Scrapper: Agent :=
    Agent("scrapper", "Tu es un assistant en extraction des infos des sites web et leur structuration.",
          "gpt-4.1", [FirecrawlTool], SpecialistSettings, PlainText)

  const Designer: Agent :=
    Agent("designer", "tu es un specialiste en generation d'images,d'illustration et de logos",
          "gpt-4.1", [ImageTool], SpecialistSettings, PlainText)

  const Podcast: Agent :=
    Agent("podcast", "tu es un specialiste en generation des podcasts",
          "gpt-4.1", [AudioTool], SpecialistSettings, PlainText)

  const Generaliste: Agent :=
    Agent("generaliste",
          "Specialiste en salutation en connaissance generale."
          + "Adopte un ton decontracté et chaleureueux."
          + "Ai recours à l'humour de temps en temps",
          "gpt-4.1-nano", [], SpecialistSettings, PlainText)

  /** The six agents runWorkflow builds on each call; only the LinkedIn
      publisher depends on the call's input, through the Zapier token. */
  datatype Roster = Roster(
    orchestrateur: Agent,
    linkedinPublisher: Agent,
    scrapper: Agent,
    designer: Agent,
    podcast: Agent,
    generaliste: Agent)

  function AgentsFor(zapierToken: string): Roster {
    Roster(Orchestrateur, LinkedinPublisher(zapierToken), Scrapper, Designer, Podcast, Generaliste)
  }

  /** The specialist a category selects, by exact string comparison; no
      agent for any other string. */
  function SpecialistFor(agents: Roster, category: string): (r: Option<Agent>)
    ensures r.Some? <==> category in Categories
  {
    if category == "linkedin" then Some(agents.linkedinPublisher)
    else if category == "scrapping" then Some(agents.scrapper)
    else if category == "images" then Some(agents.designer)
    else if category == "podcast" then Some(agents.podcast)
    else if category == "general" then Some(agents.generaliste)
    else None
  }

  /** What the configured specialists are: plain-text agents with the
      shared settings; every one but generaliste binds exactly one hosted
      tool, never asking for approval, and only the LinkedIn binding
      carries the caller's token. */
  lemma SpecialistBindings(category: string, zapierToken: string)
    requires category in Categories
    ensures var agent := SpecialistFor(AgentsFor(zapierToken), category).value;
      agent.outputType == PlainText && agent.modelSettings == SpecialistSettings
      && (|agent.tools| == 0 <==> category == "general")
      && |agent.tools| <= 1
      && (forall t :: t in agent.tools ==> t.requireApproval == Never)
      && (forall t :: t in agent.tools ==> (t.authorization.Some? <==> category == "linkedin"))
      && (forall t :: t in agent.tools && t.authorization.Some? ==> t.authorization.value == zapierToken)
  {
  }

  /** The classifier binds no tool, and its output schema admits exactly
      the categories for which dispatch selects a specialist. */
  lemma ClassifierConfiguration(zapierToken: string)
    ensures AgentsFor(zapierToken).orchestrateur.tools == []
    ensures AgentsFor(zapierToken).orchestrateur.outputType.CategoryObject?
    ensures forall c :: c in AgentsFor(zapierToken).orchestrateur.outputType.categories
                        <==> SpecialistFor(AgentsFor(zapierToken), c).Some?
  {
  }

  /** Dispatch is one-to-one: distinct categories select distinct
      specialists, told apart by name. */
  lemma DispatchOneToOne(c1: string, c2: string, zapierToken: string)
    requires c1 in Categories && c2 in Categories
    ensures SpecialistFor(AgentsFor(zapierToken), c1).value.name == SpecialistFor(AgentsFor(zapierToken), c2).value.name
            <==> c1 == c2
  {
  }

  // ---------------------------------------------------------------------
  // The agent runtime, seen from outside
  // ---------------------------------------------------------------------

  /** An agent's final output as JavaScript sees it: a string, or the
      classifier's parsed object. */
  datatype Output = Text(text: string) | Structured(category: string)

  /** JavaScript truthiness of finalOutput: undefined and "" are falsy, any
      object is truthy. */
  predicate Truthy(o: Option<Output>) {
    match o
    case None => false
    case Some(Text(t)) => t != ""
    case Some(Structured(_)) => true
  }

  /** The category field of the classifier output; a string has none. */
  function CategoryOf(o: Output): Option<string> {
    match o
    case Text(_) => None
    case Structured(c) => Some(c)
  }

  /** The tags every runtime call of a run carries: the withTrace name and
      the runner's trace metadata. */
  datatype TraceContext = TraceContext(traceName: string, traceSource: string, workflowId: string)

  /** The tags of every call of a run: the trace name, the trace source and
      the caller's workflow id. */
  function ContextFor(workflow: WorkflowInput): TraceContext
  {
    TraceContext("orchestrateur 4", "agent-builder", workflow.workflowId)
  }

  /** What one call of the runtime returns. */
  datatype AgentRun = AgentRun(newItems: seq<Item>, finalOutput: Option<Output>)

  /** One call of the runtime: under which tags, which agent, over which
      items. */
  datatype Invocation = Invocation(context: TraceContext, agent: Agent, items: seq<Item>)

  /** The runtime as an oracle from a call to its result. */
  type Runner = (TraceContext, Agent, seq<Item>) -> AgentRun

  // ---------------------------------------------------------------------
  // One run, as a function of the history before it
  // ---------------------------------------------------------------------

  const AgentResultUndefined: string := "Agent result is undefined"

  datatype Outcome = Completed(response: Output) | Failed(message: string)

  /** Everything a run does: the runtime calls it makes, the history it
      leaves and how it ends. */
  datatype RunTrace = RunTrace(invocations: seq<Invocation>, history: seq<Item>, outcome: Outcome)

  /** runWorkflow over the history `history`; stringify stands for
      JSON.stringify. */
  function Run(agents: Roster, history: seq<Item>, workflow: WorkflowInput, runner: Runner, stringify: Output -> string): (t: RunTrace)
    ensures history <= t.history && |t.history| > |history|
    ensures t.history[|history|] == UserItem(workflow.inputAsText)
    ensures 1 <= |t.invocations| <= 2
    ensures t.invocations[0] == Invocation(ContextFor(workflow), agents.orchestrateur, history + [UserItem(workflow.inputAsText)])
    ensures forall k :: 0 <= k < |t.invocations| ==>
      t.invocations[k].context == ContextFor(workflow) && t.invocations[k].items <= t.history
    ensures t.outcome.Failed? ==> t.outcome.message == AgentResultUndefined
  {
    var ctx := ContextFor(workflow);
    var withUser := history + [UserItem(workflow.inputAsText)];
    var classified := runner(ctx, agents.orchestrateur, withUser);
    var classifiedHistory := withUser + classified.newItems;
    var first := Invocation(ctx, agents.orchestrateur, withUser);
    if !Truthy(classified.finalOutput) then
      RunTrace([first], classifiedHistory, Failed(AgentResultUndefined))
    else
      var parsed := classified.finalOutput.value;
      var specialist := if parsed.Structured? then SpecialistFor(agents, parsed.category) else None;
      match specialist
      case None => RunTrace([first], classifiedHistory, Completed(Text(stringify(parsed))))
      case Some(agent) =>
        var answered := runner(ctx, agent, classifiedHistory);
        var finalHistory := classifiedHistory + answered.newItems;
        assert withUser <= classifiedHistory <= finalHistory;
        RunTrace([first, Invocation(ctx, agent, classifiedHistory)], finalHistory,
                 if Truthy(answered.finalOutput) then Completed(answered.finalOutput.value)
                 else Failed(AgentResultUndefined))
  }

  /** The classifier's reply, as the runtime gives it for a run. */
  function ClassifierRun(agents: Roster, history: seq<Item>, workflow: WorkflowInput, runner: Runner): AgentRun {
    runner(ContextFor(workflow), agents.orchestrateur, history + [UserItem(workflow.inputAsText)])
  }

  /** A falsy classifier output aborts the run after its items are logged;
      no specialist runs. */
  lemma ClassifierFailure(agents: Roster, history: seq<Item>, workflow: WorkflowInput, runner: Runner, stringify: Output -> string)
    requires !Truthy(ClassifierRun(agents, history, workflow, runner).finalOutput)
    ensures var t := Run(agents, history, workflow, runner, stringify);
      |t.invocations| == 1
      && t.history == history + [UserItem(workflow.inputAsText)] + ClassifierRun(agents, history, workflow, runner).newItems
      && t.outcome == Failed(AgentResultUndefined)
  {
  }

  /** A category among the five runs exactly its specialist, over the
      history that already holds the classifier's items; the specialist's
      items are logged before its output is checked. */
  lemma DispatchesOneSpecialist(agents: Roster, history: seq<Item>, workflow: WorkflowInput, runner: Runner,
                                stringify: Output -> string, category: string)
    requires ClassifierRun(agents, history, workflow, runner).finalOutput == Some(Structured(category))
    requires category in Categories
    ensures var t := Run(agents, history, workflow, runner, stringify);
      var seen := history + [UserItem(workflow.inputAsText)] + ClassifierRun(agents, history, workflow, runner).newItems;
      var answered := runner(ContextFor(workflow), SpecialistFor(agents, category).value, seen);
      |t.invocations| == 2
      && t.invocations[1] == Invocation(ContextFor(workflow), SpecialistFor(agents, category).value, seen)
      && t.history == seen + answered.newItems
      && (t.outcome.Completed? <==> Truthy(answered.finalOutput))
      && (t.outcome.Completed? ==> Some(t.outcome.response) == answered.finalOutput)
  {
  }

  /** Any other truthy classifier output runs no specialist, leaves the
      history as the classifier step left it and answers with the
      serialised classifier output. */
  lemma FallsBackToClassifierText(agents: Roster, history: seq<Item>, workflow: WorkflowInput, runner: Runner,
                                  stringify: Output -> string)
    requires Truthy(ClassifierRun(agents, history, workflow, runner).finalOutput)
    requires CategoryOf(ClassifierRun(agents, history, workflow, runner).finalOutput.value).None?
          || CategoryOf(ClassifierRun(agents, history, workflow, runner).finalOutput.value).value !in Categories
    ensures var t := Run(agents, history, workflow, runner, stringify);
      var classified := ClassifierRun(agents, history, workflow, runner);
      |t.invocations| == 1
      && t.history == history + [UserItem(workflow.inputAsText)] + classified.newItems
      && t.outcome == Completed(Text(stringify(classified.finalOutput.value)))
  {
  }

  /** A run fails exactly when the classifier's output is falsy or the
      specialist it selects answers with a falsy output. */
  lemma FailsExactlyOnFalsyOutput(agents: Roster, history: seq<Item>, workflow: WorkflowInput, runner: Runner,
                                  stringify: Output -> string)
    ensures var t := Run(agents, history, workflow, runner, stringify);
      t.outcome.Failed? <==>
        !Truthy(ClassifierRun(agents, history, workflow, runner).finalOutput)
        || (|t.invocations| == 2 && !Truthy(runner(t.invocations[1].context, t.invocations[1].agent, t.invocations[1].items).finalOutput))
  {
  }

  // ---------------------------------------------------------------------
  // Successive runs over the shared history
  // ---------------------------------------------------------------------

  /** The history after the runs `workflows`, one after the other, each
      with the agents built from its own Zapier token. */
  function RunAll(history: seq<Item>, workflows: seq<WorkflowInput>, runner: Runner,
                  stringify: Output -> string): seq<Item>
    decreases |workflows|
  {
    if workflows == [] then history
    else
      var last := workflows[|workflows| - 1];
      Run(AgentsFor(last.zapierToken), RunAll(history, workflows[..|workflows| - 1], runner, stringify),
          last, runner, stringify).history
  }

  /** Runs only ever extend the shared history, by at least the user item
      of each run, whether or not they fail. */
  lemma {:induction false} RunAllExtends(history: seq<Item>, workflows: seq<WorkflowInput>, runner: Runner,
                                         stringify: Output -> string)
    ensures history <= RunAll(history, workflows, runner, stringify)
    ensures |RunAll(history, workflows, runner, stringify)| >= |history| + |workflows|
    decreases |workflows|
  {
    if workflows != [] {
      RunAllExtends(history, workflows[..|workflows| - 1], runner, stringify);
    }
  }

  /** A later run's classifier sees everything earlier runs logged, then
      its own user item. */
  lemma LaterRunSeesEarlierRuns(history: seq<Item>, earlier: seq<WorkflowInput>, workflow: WorkflowInput,
                                runner: Runner, stringify: Output -> string)
    ensures var before := RunAll(history, earlier, runner, stringify);
      var t := Run(AgentsFor(workflow.zapierToken), before, workflow, runner, stringify);
      history <= t.invocations[0].items
      && t.invocations[0].items == before + [UserItem(workflow.inputAsText)]
  {
    RunAllExtends(history, earlier, runner, stringify);
  }

  // ---------------------------------------------------------------------
  // The module's state and runWorkflow itself
  // ---------------------------------------------------------------------

  /** The module-level state: conversationHistory, which every run shares,
      and (as a ghost) the runtime calls made so far. */
  class WorkflowModule {
    var conversationHistory: seq<Item>
    ghost var invocations: seq<Invocation>

    constructor ()
      ensures conversationHistory == [] && invocations == []
    {
      conversationHistory := [];
      invocations := [];
    }

    /** Runs one agent over a copy of the current history, appends the items
        the run produced to the history, and returns the run's final output. */
    method RunAgent(runner: Runner, ctx: TraceContext, agent: Agent) returns (finalOutput: Option<Output>)
      modifies this
      ensures var answered := runner(ctx, agent, old(conversationHistory));
        conversationHistory == old(conversationHistory) + answered.newItems
        && invocations == old(invocations) + [Invocation(ctx, agent, old(conversationHistory))]
        && finalOutput == answered.finalOutput
    {
      var answered := runner(ctx, agent, conversationHistory);
      invocations := invocations + [Invocation(ctx, agent, conversationHistory)];
      conversationHistory := conversationHistory + answered.newItems;
      finalOutput := answered.finalOutput;
    }

    /** runWorkflow: builds the six agents for this call, then runs them;
        a thrown error is the outcome Failed. */
    method RunWorkflow(workflow: WorkflowInput, runner: Runner, stringify: Output -> string) returns (outcome: Outcome)
      modifies this
      ensures var t := Run(AgentsFor(workflow.zapierToken), old(conversationHistory), workflow, runner, stringify);
        conversationHistory == t.history
        && invocations == old(invocations) + t.invocations
        && outcome == t.outcome
    {
      var agents := AgentsFor(workflow.zapierToken);
      outcome := RunAgents(agents, workflow, runner, stringify);
    }

    /** The body of runWorkflow after the agents are built: log the user's
        text, classify, dispatch. */
    method RunAgents(agents: Roster, workflow: WorkflowInput, runner: Runner, stringify: Output -> string)
      returns (outcome: Outcome)
      modifies this
      ensures var t := Run(agents, old(conversationHistory), workflow, runner, stringify);
        conversationHistory == t.history
        && invocations == old(invocations) + t.invocations
        && outcome == t.outcome
    {
      conversationHistory := conversationHistory + [UserItem(workflow.inputAsText)];
      var ctx := ContextFor(workflow);
      var classified := RunAgent(runner, ctx, agents.orchestrateur);
      if !Truthy(classified) {
        return Failed(AgentResultUndefined);
      }
      var outputParsed := classified.value;
      var outputText := stringify(outputParsed);
      var category := CategoryOf(outputParsed);
      var finalResult := Text("");
      if category == Some("linkedin") {
        var answer := RunAgent(runner, ctx, agents.linkedinPublisher);
        if !Truthy(answer) {
          return Failed(AgentResultUndefined);
        }
        finalResult := answer.value;
      } else if category == Some("scrapping") {
        var answer := RunAgent(runner, ctx, agents.scrapper);
        if !Truthy(answer) {
          return Failed(AgentResultUndefined);
        }
        finalResult := answer.value;
      } else if category == Some("images") {
        var answer := RunAgent(runner, ctx, agents.designer);
        if !Truthy(answer) {
          return Failed(AgentResultUndefined);
        }
        finalResult := answer.value;
      } else if category == Some("podcast") {
        var answer := RunAgent(runner, ctx, agents.podcast);
        if !Truthy(answer) {
          return Failed(AgentResultUndefined);
        }
        finalResult := answer.value;
      } else if category == Some("general") {
        var answer := RunAgent(runner, ctx, agents.generaliste);
        if !Truthy(answer) {
          return Failed(AgentResultUndefined);
        }
        finalResult := answer.value;
      } else {
        finalResult := Text(outputText);
      }
      outcome := Completed(finalResult);
    }
  }
}
