/**
 * The conversation loop (agent/agent.go). The model client is a scripted
 * oracle: each call takes the next scripted outcome, and a call after the
 * script has run out fails. `CallModelSpec` says, as a function of the store,
 * the script and the tools, what the loop does; the `Agent` class runs the
 * loop on the store and is proved to do exactly that.
 */
module Agent {
  import opened Wrappers
  import opened Json
  import opened Tools
  import opened Registry
  import opened Conversation

  const ToolUseStop: string := "tool_use"
  const NotInListText: string := "This tool is not in the list of tools."
  const GenericErrorText: string := "An error occurred while running the tool."
  const MaxTokens: int := 8000
  const ScriptExhausted: string := "no scripted reply left"

  /** A model reply: its content blocks in order and the reason generation stopped. */
  datatype Reply = Reply(content: seq<ContentBlock>, stopReason: string)

  /** The outcome of one call to the model. */
  datatype ModelOutcome = Answered(reply: Reply) | CallFailed(error: string)

  /** What one call sends: the whole history, the tool definitions, the system prompt and limits. */
  datatype Request = Request(
    messages: seq<Message>, tools: seq<ToolDefinition>, system: string, maxTokens: int, model: string)

  /** What the loop works with besides the store and the model. */
  datatype Config = Config(tools: seq<Tool>, world: World, systemPrompt: string, modelName: string)

  /** The reply as the store keeps it (`response.ToParam()`). */
  function AssistantMessage(reply: Reply): Message
  {
    Message(Assistant, reply.content)
  }

  function RequestFor(cfg: Config, messages: seq<Message>): Request
  {
    Request(messages, GetToolDefinitions(cfg.tools), cfg.systemPrompt, MaxTokens, cfg.modelName)
  }

  /**
   * `processToolUseBlock`: every outcome becomes a tool result for the call's
   * identifier. Unknown tool, invalid arguments (with the error's text), any
   * other failure (with a fixed text) are errors; success carries the output.
   */
  function ProcessToolUseBlock(tools: seq<Tool>, use: ToolUse, w: World): (r: ContentBlock)
    ensures r.ToolResultBlock? && r.toolUseId == use.id
    ensures GetTool(tools, use.name).Err? ==> r.content == NotInListText && r.isError
    ensures GetTool(tools, use.name).Ok? ==>
              var out := Registry.Run(GetTool(tools, use.name).value, use.input, w);
              && (out.Output? ==> r.content == out.text && !r.isError)
              && (out.Error? && out.error.InvalidToolArguments? ==>
                    r.content == InvalidArgumentsText(out.error.toolName, out.error.message) && r.isError)
              && (out.Error? && out.error.Failed? ==> r.content == GenericErrorText && r.isError)
  {
    match GetTool(tools, use.name)
    case Err(_) => ToolResultBlock(use.id, NotInListText, true)
    case Ok(tool) =>
      match Registry.Run(tool, use.input, w)
      case Error(InvalidToolArguments(toolName, message)) =>
        ToolResultBlock(use.id, InvalidArgumentsText(toolName, message), true)
      case Error(Failed(_)) => ToolResultBlock(use.id, GenericErrorText, true)
      case Output(text) => ToolResultBlock(use.id, text, false)
  }

  /** How a reply ends: with a final text, or with a turn of tool results to append. */
  datatype Processed = FinalText(text: string) | ToolTurn(results: seq<ContentBlock>)

  /**
   * `processResponse`'s walk over the blocks, with the results gathered so
   * far in `acc`: text is skipped under a tool-use stop and otherwise ends the
   * walk; each tool-use block adds its result; other blocks are ignored.
   */
  function Process(blocks: seq<ContentBlock>, stopReason: string, tools: seq<Tool>, w: World,
                   acc: seq<ContentBlock>): (r: Processed)
    ensures r.FinalText? ==> stopReason != ToolUseStop && TextBlock(r.text) in blocks
    ensures r.ToolTurn? ==> acc <= r.results
    decreases |blocks|
  {
    if blocks == [] then ToolTurn(acc)
    else
      match blocks[0]
      case TextBlock(t) =>
        if stopReason == ToolUseStop then Process(blocks[1..], stopReason, tools, w, acc)
        else FinalText(t)
      case ToolUseBlock(use) =>
        Process(blocks[1..], stopReason, tools, w, acc + [ProcessToolUseBlock(tools, use, w)])
      case _ => Process(blocks[1..], stopReason, tools, w, acc)
  }

  function ProcessReply(reply: Reply, tools: seq<Tool>, w: World): Processed
  {
    Process(reply.content, reply.stopReason, tools, w, [])
  }

  /** The state the loop changes: the store's messages and flag, the model's script and the requests it got. */
  datatype LoopState = LoopState(
    messages: seq<Message>, pending: bool, script: seq<ModelOutcome>, requests: seq<Request>)

  /** How one pass of the loop ends: with the loop's result, or with a state to test again. */
  datatype Pass = Done(result: Result<string, string>, after: LoopState) | Again(after: LoopState)

  /**
   * One pass of `callModel`'s loop body: call the model with the whole
   * history and clear the flag; on an error stop with it; otherwise store the
   * reply and process it, stopping on a non-empty final text.
   */
  function LoopPass(st: LoopState, cfg: Config): (p: Pass)
    ensures p.after.requests == st.requests + [RequestFor(cfg, st.messages)]
    ensures st.messages <= p.after.messages
    ensures p.Done? ==> !p.after.pending
    ensures p.Again? ==> st.script != [] && p.after.script == st.script[1..]
    ensures IsSuffix(p.after.script, st.script)
    ensures p.Done? && p.result.Ok? ==>
              var ms := p.after.messages;
              ms != [] && ms[|ms| - 1].role == Assistant && TextBlock(p.result.value) in ms[|ms| - 1].content
  {
    var requests := st.requests + [RequestFor(cfg, st.messages)];
    if st.script == [] then
      Done(Err(ScriptExhausted), LoopState(st.messages, false, [], requests))
    else
      match st.script[0]
      case CallFailed(e) => Done(Err(e), LoopState(st.messages, false, st.script[1..], requests))
      case Answered(reply) =>
        var stored := st.messages + [AssistantMessage(reply)];
        match ProcessReply(reply, cfg.tools, cfg.world)
        case FinalText(t) =>
          if t != "" then Done(Ok(t), LoopState(stored, false, st.script[1..], requests))
          else Again(LoopState(stored, false, st.script[1..], requests))
        case ToolTurn(results) =>
          Again(LoopState(stored + [Message(User, results)], true, st.script[1..], requests))
  }

  /**
   * `callModel`: while messages are pending, one pass of the loop body. It
   * returns on a model error, on a non-empty final text, or once nothing is
   * pending. `LoopGuarantees` states what every run of it keeps.
   */
  function CallModelSpec(st: LoopState, cfg: Config): (r: (Result<string, string>, LoopState))
    ensures !r.1.pending
    ensures st.pending ==> |r.1.requests| > |st.requests|
    decreases |st.script|
  {
    if !st.pending then (Ok(""), st)
    else
      match LoopPass(st, cfg)
      case Done(result, after) => (result, after)
      case Again(after) => CallModelSpec(after, cfg)
  }

  /**
   * What every run of the loop guarantees: it ends with the flag clear; it
   * calls the model exactly when something is pending, the first time with
   * the history as it was; the history and the request log only grow and the
   * script is only consumed; every request carries the whole history of its
   * moment and the same tool definitions; a non-empty answer is a text block of
   * the last stored message, which is the model's reply.
   */
  lemma LoopGuarantees(st: LoopState, cfg: Config)
    ensures var r := CallModelSpec(st, cfg);
      && !r.1.pending
      && (!st.pending ==> r == (Ok(""), st))
      && (st.pending <==> |r.1.requests| > |st.requests|)
      && (st.pending ==> r.1.requests[|st.requests|] == RequestFor(cfg, st.messages))
      && st.messages <= r.1.messages && st.requests <= r.1.requests
      && IsSuffix(r.1.script, st.script)
      && (forall k :: |st.requests| <= k < |r.1.requests| ==>
            st.messages <= r.1.requests[k].messages <= r.1.messages &&
            r.1.requests[k].tools == GetToolDefinitions(cfg.tools))
      && (r.0.Ok? && r.0.value != "" ==>
            r.1.messages != [] && r.1.messages[|r.1.messages| - 1].role == Assistant &&
            TextBlock(r.0.value) in r.1.messages[|r.1.messages| - 1].content)
  {
    LoopGrowth(st, cfg);
    LoopFirstCall(st, cfg);
    LoopRequests(st, cfg);
    LoopAnswer(st, cfg);
  }

  /** The history and the request log only grow, and the script is only consumed from the front. */
  lemma LoopGrowth(st: LoopState, cfg: Config)
    ensures var r := CallModelSpec(st, cfg);
      && st.messages <= r.1.messages && st.requests <= r.1.requests
      && IsSuffix(r.1.script, st.script)
  {
    LoopMessagesGrow(st, cfg);
    LoopRequestsGrow(st, cfg);
    LoopScriptConsumed(st, cfg);
  }

  /** The history only grows. */
  lemma {:induction false} LoopMessagesGrow(st: LoopState, cfg: Config)
    ensures st.messages <= CallModelSpec(st, cfg).1.messages
    decreases |st.script|
  {
    if st.pending {
      var p := LoopPass(st, cfg);
      if p.Again? {
        LoopMessagesGrow(p.after, cfg);
        PrefixTransitive(st.messages, p.after.messages, CallModelSpec(p.after, cfg).1.messages);
      }
    }
  }

  /** The request log only grows. */
  lemma {:induction false} LoopRequestsGrow(st: LoopState, cfg: Config)
    ensures st.requests <= CallModelSpec(st, cfg).1.requests
    decreases |st.script|
  {
    if st.pending {
      var p := LoopPass(st, cfg);
      if p.Again? {
        LoopRequestsGrow(p.after, cfg);
        PrefixTransitive(st.requests, p.after.requests, CallModelSpec(p.after, cfg).1.requests);
      }
    }
  }

  /** The script is only consumed from the front. */
  lemma {:induction false} LoopScriptConsumed(st: LoopState, cfg: Config)
    ensures var r := CallModelSpec(st, cfg);
      IsSuffix(r.1.script, st.script)
    decreases |st.script|
  {
    if st.pending {
      var p := LoopPass(st, cfg);
      if p.Again? {
        LoopScriptConsumed(p.after, cfg);
        SuffixTransitive(st.script, p.after.script, CallModelSpec(p.after, cfg).1.script);
      }
    }
  }

  /** `b` is what is left of `a` once some elements are taken from its front. */
  ghost predicate IsSuffix<T>(b: seq<T>, a: seq<T>)
  {
    |b| <= |a| && b == a[|a| - |b|..]
  }

  lemma SuffixTransitive<T>(a: seq<T>, b: seq<T>, c: seq<T>)
    requires IsSuffix(b, a) && IsSuffix(c, b)
    ensures IsSuffix(c, a)
  {
    assert a[|a| - |b|..][|b| - |c|..] == a[|a| - |c|..];
  }

  lemma PrefixTransitive<T>(a: seq<T>, b: seq<T>, c: seq<T>)
    requires a <= b && b <= c
    ensures a <= c
  {
    assert c[..|a|] == b[..|a|];
  }

  /** The flag ends clear, and the model is called exactly when something is pending, first with the history as it was. */
  lemma {:induction false} LoopFirstCall(st: LoopState, cfg: Config)
    ensures var r := CallModelSpec(st, cfg);
      && !r.1.pending
      && (!st.pending ==> r == (Ok(""), st))
      && (st.pending ==> |r.1.requests| > |st.requests| && r.1.requests[|st.requests|] == RequestFor(cfg, st.messages))
    decreases |st.script|
  {
    if st.pending && LoopPass(st, cfg).Again? {
      var next := LoopPass(st, cfg).after;
      LoopFirstCall(next, cfg);
      LoopGrowth(next, cfg);
      var r := CallModelSpec(next, cfg);
      assert r.1.requests[|st.requests|] == next.requests[|st.requests|];
    }
  }

  /** The requests from index `from` on carry a history between `lo` and `hi`, and the tool definitions `defs`. */
  ghost predicate RequestsWithin(requests: seq<Request>, from: nat, lo: seq<Message>, hi: seq<Message>,
                                 defs: seq<ToolDefinition>)
  {
    forall k :: from <= k < |requests| ==> lo <= requests[k].messages <= hi && requests[k].tools == defs
  }

  /** Every request made carries a history between the initial and final one, and the same tools. */
  lemma {:induction false} LoopRequests(st: LoopState, cfg: Config)
    ensures var r := CallModelSpec(st, cfg);
      RequestsWithin(r.1.requests, |st.requests|, st.messages, r.1.messages, GetToolDefinitions(cfg.tools))
    decreases |st.script|
  {
    if st.pending {
      var p := LoopPass(st, cfg);
      var defs := GetToolDefinitions(cfg.tools);
      if p.Again? {
        var next := p.after;
        LoopMessagesGrow(next, cfg);
        LoopRequestsGrow(next, cfg);
        LoopRequests(next, cfg);
        var r := CallModelSpec(next, cfg);
        PrefixTransitive(st.messages, next.messages, r.1.messages);
        assert r.1.requests[|st.requests|] == next.requests[|st.requests|];
        RequestsWiden(r.1.requests, |st.requests|, st.messages, next.messages, r.1.messages, defs);
      } else {
        RequestsWiden(p.after.requests, |st.requests|, st.messages, p.after.messages, p.after.messages, defs);
      }
    }
  }

  /** One more request at `from` with the history `lo`, and later ones from a longer history `mid`. */
  lemma RequestsWiden(requests: seq<Request>, from: nat, lo: seq<Message>, mid: seq<Message>, hi: seq<Message>,
                      defs: seq<ToolDefinition>)
    requires from < |requests| && requests[from].messages == lo && requests[from].tools == defs
    requires lo <= mid <= hi
    requires RequestsWithin(requests, from + 1, mid, hi, defs)
    ensures RequestsWithin(requests, from, lo, hi, defs)
  {
    forall k | from <= k < |requests|
      ensures lo <= requests[k].messages <= hi && requests[k].tools == defs
    {
      if k > from {
        PrefixTransitive(lo, mid, requests[k].messages);
      }
    }
  }

  /** A non-empty answer is a text block of the last stored message, which is the model's reply. */
  lemma {:induction false} LoopAnswer(st: LoopState, cfg: Config)
    ensures var r := CallModelSpec(st, cfg);
      r.0.Ok? && r.0.value != "" ==>
        r.1.messages != [] && r.1.messages[|r.1.messages| - 1].role == Assistant &&
        TextBlock(r.0.value) in r.1.messages[|r.1.messages| - 1].content
    decreases |st.script|
  {
    if st.pending && LoopPass(st, cfg).Again? {
      LoopAnswer(LoopPass(st, cfg).after, cfg);
    }
  }

  /** The model client: scripted outcomes, and the log of the requests it received. */
  class ModelClient {
    var script: seq<ModelOutcome>
    var requests: seq<Request>

    constructor (script: seq<ModelOutcome>)
      ensures this.script == script && requests == []
    {
      this.script := script;
      requests := [];
    }

    /** `client.Messages.New`: records the request and answers with the next scripted outcome. */
    method New(request: Request) returns (outcome: ModelOutcome)
      modifies this
      ensures requests == old(requests) + [request]
      ensures old(script) == [] ==> outcome == CallFailed(ScriptExhausted) && script == []
      ensures old(script) != [] ==> outcome == old(script)[0] && script == old(script)[1..]
    {
      requests := requests + [request];
      if script == [] {
        outcome := CallFailed(ScriptExhausted);
      } else {
        outcome := script[0];
        script := script[1..];
      }
    }
  }

  /** The user messages `GenerateDailySummary` seeds the conversation with, in order. */
  function SeedMessages(today: string, myName: string, linearTeams: string): (r: seq<string>)
    ensures |r| == 8
  {
    [ "The current date is " + today,
      "My name is " + myName + " and I'm an engineer in teams " + linearTeams,
      PlanPrompt, MeetingsPrompt, ReviewPrompt, TodoPrompt, GistPrompt,
      ReportTemplate ]
  }

  const PlanPrompt: string :=
    "What's the plan for today? Check my calendar for meetings and Linear for any issues I need to review or work on. Include Zoom links or Linear links if they exist.  I like emojis, please use them."
  const MeetingsPrompt: string :=
    "Create a section for each meeting I have, include a note of the people in attendance and the topic of the meeting, with some space for notes."
  const ReviewPrompt: string :=
    "Create a section for each issue I need to review for my team, is is everyone except me, include a note of the title, author, and priority of the issue with a link to the issue, do not redact."
  const TodoPrompt: string :=
    "Create a section for each thing I need to do, include a note of the title, author, and priority of the issue with a link to the issue."
  const GistPrompt: string := "Create a markdown formatted with the following gist"

  /** The report layout the last seed message asks for (abbreviated). */
  const ReportTemplate: string :=
    "Start each file with some interesting ASCII art max 8 x 8 characters.\n"
    + "# Good Morning {name}!\n## Calendar\n## Things I need to review\n## Things I need to do\n## Suggestions\n"

  function SeedTurns(seeds: seq<string>): (r: seq<Message>)
    ensures |r| == |seeds|
    ensures forall i :: 0 <= i < |seeds| ==> r[i] == UserText(seeds[i])
  {
    if seeds == [] then [] else [UserText(seeds[0])] + SeedTurns(seeds[1..])
  }

  lemma SeedTurnsEight(seeds: seq<string>)
    requires |seeds| == 8
    ensures SeedTurns(seeds) ==
      [UserText(seeds[0]), UserText(seeds[1]), UserText(seeds[2]), UserText(seeds[3]),
       UserText(seeds[4]), UserText(seeds[5]), UserText(seeds[6]), UserText(seeds[7])]
  {
  }

  class Agent {
    const contextManager: ContextManager
    const client: ModelClient
    const tools: seq<Tool>
    const world: World
    const systemPrompt: string
    const modelName: string
    const myName: string
    const linearTeams: string

    /** `NewAgent`: a fresh, empty store with the default window at the configured location. */
    constructor (client: ModelClient, tools: seq<Tool>, world: World, contextManagerLocation: string,
                 myName: string, linearTeams: string)
      ensures fresh(contextManager)
      ensures contextManager.messages == [] && !contextManager.hasNewMessages
      ensures contextManager.contextWindow == DefaultContextWindow
      ensures contextManager.fileLocation == contextManagerLocation
      ensures this.client == client
      ensures this.tools == tools && this.world == world
      ensures this.myName == myName && this.linearTeams == linearTeams
      ensures systemPrompt == SystemPrompt && modelName == ModelName
    {
      contextManager := new ContextManager(DefaultContextWindow, contextManagerLocation);
      this.client := client;
      this.tools := tools;
      this.world := world;
      this.myName := myName;
      this.linearTeams := linearTeams;
      systemPrompt := SystemPrompt;
      modelName := ModelName;
    }

    function Cfg(): Config
    {
      Config(tools, world, systemPrompt, modelName)
    }

    ghost function State(): LoopState
      reads contextManager, client
    {
      LoopState(contextManager.messages, contextManager.hasNewMessages, client.script, client.requests)
    }

    /** `processResponse`: a final text is returned without a store change; otherwise one tool-result turn is appended. */
    method ProcessResponse(reply: Reply) returns (text: string)
      modifies contextManager
      ensures ProcessReply(reply, tools, world).FinalText? ==>
                text == ProcessReply(reply, tools, world).text &&
                contextManager.messages == old(contextManager.messages) &&
                contextManager.hasNewMessages == old(contextManager.hasNewMessages)
      ensures ProcessReply(reply, tools, world).ToolTurn? ==>
                text == "" &&
                contextManager.messages ==
                  old(contextManager.messages) + [Message(User, ProcessReply(reply, tools, world).results)] &&
                contextManager.hasNewMessages
    {
      var toolResults: seq<ContentBlock> := [];
      var i := 0;
      while i < |reply.content|
        invariant 0 <= i <= |reply.content|
        invariant Process(reply.content[i..], reply.stopReason, tools, world, toolResults) ==
                  ProcessReply(reply, tools, world)
      {
        assert reply.content[i..][1..] == reply.content[i + 1..];
        match reply.content[i] {
          case TextBlock(t) =>
            if reply.stopReason != ToolUseStop {
              return t;
            }
          case ToolUseBlock(use) =>
            var toolResponse := ProcessToolUseBlock(tools, use, world);
            toolResults := toolResults + [toolResponse];
          case _ =>
        }
        i := i + 1;
      }
      contextManager.AppendToolResults(toolResults);
      text := "";
    }

    /** `callModel`, proved to do what `CallModelSpec` says. */
    method CallModel() returns (r: Result<string, string>)
      modifies contextManager, client
      ensures (r, State()) == CallModelSpec(old(State()), Cfg())
    {
      while contextManager.hasNewMessages
        invariant CallModelSpec(State(), Cfg()) == CallModelSpec(old(State()), Cfg())
        decreases |client.script|
      {
        var messages := contextManager.GetMessages();
        var request := Request(messages, GetToolDefinitions(tools), systemPrompt, MaxTokens, modelName);
        var response := client.New(request);
        contextManager.ClearNewMessages();
        if response.CallFailed? {
          return Err(response.error);
        }
        var reply := response.reply;
        contextManager.AppendAssistantMessage(AssistantMessage(reply));
        var responseText := ProcessResponse(reply);
        if responseText != "" {
          return Ok(responseText);
        }
      }
      r := Ok("");
    }

    /**
     * `GenerateDailySummary`: eight user messages, then the loop. The first
     * model call therefore sees the earlier history followed by the eight seeds.
     */
    method GenerateDailySummary(today: string) returns (r: Result<string, string>)
      modifies contextManager, client
      ensures (r, State()) ==
              CallModelSpec(LoopState(old(contextManager.messages) + SeedTurns(SeedMessages(today, myName, linearTeams)),
                                      true, old(client.script), old(client.requests)), Cfg())
      ensures |client.requests| > old(|client.requests|)
      ensures client.requests[old(|client.requests|)].messages ==
              old(contextManager.messages) + SeedTurns(SeedMessages(today, myName, linearTeams))
    {
      SeedConversation(today);
      LoopFirstCall(State(), Cfg());
      r := CallModel();
    }

    /** The eight appends `GenerateDailySummary` starts with. */
    method SeedConversation(today: string)
      modifies contextManager
      ensures contextManager.messages ==
              old(contextManager.messages) + SeedTurns(SeedMessages(today, myName, linearTeams))
      ensures contextManager.hasNewMessages
    {
      var seeds := SeedMessages(today, myName, linearTeams);
      contextManager.AppendUserMessage(seeds[0]);
      contextManager.AppendUserMessage(seeds[1]);
      contextManager.AppendUserMessage(seeds[2]);
      contextManager.AppendUserMessage(seeds[3]);
      contextManager.AppendUserMessage(seeds[4]);
      contextManager.AppendUserMessage(seeds[5]);
      contextManager.AppendUserMessage(seeds[6]);
      contextManager.AppendUserMessage(seeds[7]);
      assert contextManager.messages == old(contextManager.messages) +
        [UserText(seeds[0]), UserText(seeds[1]), UserText(seeds[2]), UserText(seeds[3]),
         UserText(seeds[4]), UserText(seeds[5]), UserText(seeds[6]), UserText(seeds[7])];
      SeedTurnsEight(seeds);
    }
  }

  const SystemPrompt: string :=
    "You are an AI agent that can use tools to produce a daily summary of my day.\n"
    + "Be concise and to the point, do not include any other text.\n"
    + "You must only return markdown formatted text."

  /** The context window `NewAgent` gives its store. */
  const DefaultContextWindow: int := 4000

  const ModelName: string := "claude-3-5-sonnet-latest"
}
