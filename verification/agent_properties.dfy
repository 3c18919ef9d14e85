/**
 * What the conversation loop of agent/agent.go promises, stated over the
 * specification functions of module `Agent`: how one reply is processed, what
 * one pass of the loop does, and the scenarios of a whole conversation.
 */
module AgentProperties {
  import opened Wrappers
  import opened Json
  import opened Tools
  import opened Registry
  import opened Conversation
  import opened Agent
  import Calendar

  /** The tool requests of a reply, in the order they appear. */
  function ToolUses(blocks: seq<ContentBlock>): (r: seq<ToolUse>)
    ensures |r| <= |blocks|
  {
    if blocks == [] then []
    else (if blocks[0].ToolUseBlock? then [blocks[0].use] else []) + ToolUses(blocks[1..])
  }

  /** The requests gathered are exactly those of the reply's tool-use blocks. */
  lemma {:induction false} ToolUsesExact(blocks: seq<ContentBlock>)
    ensures forall u :: u in ToolUses(blocks) <==> ToolUseBlock(u) in blocks
  {
    if blocks != [] {
      ToolUsesExact(blocks[1..]);
      assert blocks == [blocks[0]] + blocks[1..];
    }
  }

  /** The text of the first text block, if there is one. */
  function FirstText(blocks: seq<ContentBlock>): (r: Option<string>)
    ensures r.Some? <==> exists i :: 0 <= i < |blocks| && blocks[i].TextBlock?
  {
    if blocks == [] then None
    else if blocks[0].TextBlock? then Some(blocks[0].text)
    else FirstText(blocks[1..])
  }

  /** One tool result per request, in request order, each for its request's identifier. */
  function RunAll(tools: seq<Tool>, uses: seq<ToolUse>, w: World): (r: seq<ContentBlock>)
    ensures |r| == |uses|
    ensures forall i :: 0 <= i < |uses| ==> r[i].ToolResultBlock? && r[i].toolUseId == uses[i].id
  {
    if uses == [] then []
    else
      var rest := RunAll(tools, uses[1..], w);
      assert forall i :: 1 <= i <= |rest| ==> uses[i] == uses[1..][i - 1];
      [ProcessToolUseBlock(tools, uses[0], w)] + rest
  }

  /**
   * What the walk over a reply's blocks yields, stated without the walk: under
   * any stop reason but tool use, the first text if there is one; otherwise
   * the results gathered so far followed by one result per tool request, in
   * order.
   */
  function Expected(blocks: seq<ContentBlock>, stopReason: string, tools: seq<Tool>, w: World,
                    acc: seq<ContentBlock>): Processed
  {
    if stopReason != ToolUseStop && FirstText(blocks).Some? then FinalText(FirstText(blocks).value)
    else ToolTurn(acc + RunAll(tools, ToolUses(blocks), w))
  }

  /**
   * The walk over a reply's blocks yields what `Expected` says: a text block
   * under a stop reason other than tool use ends it and drops the results of
   * tools that came before; otherwise every tool request gets exactly one
   * result, in order.
   */
  lemma {:induction false} ProcessCharacterised(blocks: seq<ContentBlock>, stopReason: string,
                                                tools: seq<Tool>, w: World, acc: seq<ContentBlock>)
    ensures Process(blocks, stopReason, tools, w, acc) == Expected(blocks, stopReason, tools, w, acc)
    decreases |blocks|
  {
    if blocks == [] {
      assert acc + RunAll(tools, [], w) == acc;
    } else if blocks[0].TextBlock? {
      if stopReason == ToolUseStop {
        ProcessCharacterised(blocks[1..], stopReason, tools, w, acc);
      }
      TextStep(blocks, stopReason, tools, w, acc);
    } else if blocks[0].ToolUseBlock? {
      var x := ProcessToolUseBlock(tools, blocks[0].use, w);
      ProcessCharacterised(blocks[1..], stopReason, tools, w, acc + [x]);
      ToolUseStep(blocks, stopReason, tools, w, acc);
    } else {
      ProcessCharacterised(blocks[1..], stopReason, tools, w, acc);
      OtherStep(blocks, stopReason, tools, w, acc);
    }
  }

  /** A leading text block ends the walk unless the stop reason is tool use; then it is skipped. */
  lemma TextStep(blocks: seq<ContentBlock>, stopReason: string, tools: seq<Tool>, w: World, acc: seq<ContentBlock>)
    requires blocks != [] && blocks[0].TextBlock?
    requires stopReason == ToolUseStop ==>
               Process(blocks[1..], stopReason, tools, w, acc) == Expected(blocks[1..], stopReason, tools, w, acc)
    ensures Process(blocks, stopReason, tools, w, acc) == Expected(blocks, stopReason, tools, w, acc)
  {
    assert ToolUses(blocks) == ToolUses(blocks[1..]);
    assert FirstText(blocks) == Some(blocks[0].text);
  }

  /** A leading tool-use block gathers its result, and the walk goes on. */
  lemma ToolUseStep(blocks: seq<ContentBlock>, stopReason: string, tools: seq<Tool>, w: World,
                    acc: seq<ContentBlock>)
    requires blocks != [] && blocks[0].ToolUseBlock?
    requires var x := ProcessToolUseBlock(tools, blocks[0].use, w);
             Process(blocks[1..], stopReason, tools, w, acc + [x]) == Expected(blocks[1..], stopReason, tools, w, acc + [x])
    ensures Process(blocks, stopReason, tools, w, acc) == Expected(blocks, stopReason, tools, w, acc)
  {
    var rest := blocks[1..];
    var use := blocks[0].use;
    var x := ProcessToolUseBlock(tools, use, w);
    ToolUsesCons(blocks);
    assert Process(blocks, stopReason, tools, w, acc) == Process(rest, stopReason, tools, w, acc + [x]);
    ExpectedToolUse(blocks, stopReason, tools, w, acc, x);
  }

  /** What is expected after a leading tool-use block is what is expected of the whole, its result gathered. */
  lemma ExpectedToolUse(blocks: seq<ContentBlock>, stopReason: string, tools: seq<Tool>, w: World,
                        acc: seq<ContentBlock>, x: ContentBlock)
    requires blocks != [] && blocks[0].ToolUseBlock? && x == ProcessToolUseBlock(tools, blocks[0].use, w)
    ensures Expected(blocks[1..], stopReason, tools, w, acc + [x]) == Expected(blocks, stopReason, tools, w, acc)
  {
    var rest := blocks[1..];
    ToolUsesCons(blocks);
    if !(stopReason != ToolUseStop && FirstText(blocks).Some?) {
      var later := RunAll(tools, ToolUses(rest), w);
      RunAllCons(tools, blocks[0].use, ToolUses(rest), w);
      assert RunAll(tools, ToolUses(blocks), w) == [x] + later;
      assert acc + [x] + later == acc + ([x] + later);
    }
  }

  /** A leading tool-use block adds its request in front and does not change the first text. */
  lemma ToolUsesCons(blocks: seq<ContentBlock>)
    requires blocks != [] && blocks[0].ToolUseBlock?
    ensures ToolUses(blocks) == [blocks[0].use] + ToolUses(blocks[1..])
    ensures FirstText(blocks) == FirstText(blocks[1..])
  {
  }

  /** Any other block is skipped. */
  lemma OtherStep(blocks: seq<ContentBlock>, stopReason: string, tools: seq<Tool>, w: World, acc: seq<ContentBlock>)
    requires blocks != [] && !blocks[0].TextBlock? && !blocks[0].ToolUseBlock?
    requires Process(blocks[1..], stopReason, tools, w, acc) == Expected(blocks[1..], stopReason, tools, w, acc)
    ensures Process(blocks, stopReason, tools, w, acc) == Expected(blocks, stopReason, tools, w, acc)
  {
    assert ToolUses(blocks) == ToolUses(blocks[1..]);
    assert FirstText(blocks) == FirstText(blocks[1..]);
  }

  lemma RunAllCons(tools: seq<Tool>, use: ToolUse, uses: seq<ToolUse>, w: World)
    ensures RunAll(tools, [use] + uses, w) == [ProcessToolUseBlock(tools, use, w)] + RunAll(tools, uses, w)
  {
    assert ([use] + uses)[1..] == uses;
  }

  /** A requested tool that is not registered is reported, and nothing the tools could fetch matters. */
  lemma UnknownToolNeverRuns(tools: seq<Tool>, use: ToolUse, w1: World, w2: World)
    requires forall i :: 0 <= i < |tools| ==> Name(tools[i]) != use.name
    ensures ProcessToolUseBlock(tools, use, w1) == ToolResultBlock(use.id, NotInListText, true)
    ensures ProcessToolUseBlock(tools, use, w1) == ProcessToolUseBlock(tools, use, w2)
  {
  }

  /** Nothing pending: the loop returns the empty text without calling the model or changing anything. */
  lemma NothingPendingNoCall(st: LoopState, cfg: Config)
    requires !st.pending
    ensures CallModelSpec(st, cfg) == (Ok(""), st)
  {
  }

  /** A failed model call ends the loop with that error; the flag is cleared and nothing is appended. */
  lemma ModelErrorStops(st: LoopState, cfg: Config, e: string)
    requires st.pending && st.script != [] && st.script[0] == CallFailed(e)
    ensures CallModelSpec(st, cfg) ==
            (Err(e), LoopState(st.messages, false, st.script[1..], st.requests + [RequestFor(cfg, st.messages)]))
  {
  }

  /**
   * A reply that does not stop for tool use and holds a non-empty text ends
   * the loop with the first text, verbatim, after storing the reply; no
   * tool-result turn is appended.
   */
  lemma FinalAnswerStops(st: LoopState, cfg: Config, reply: Reply)
    requires st.pending && st.script != [] && st.script[0] == Answered(reply)
    requires reply.stopReason != ToolUseStop && FirstText(reply.content).Some?
    requires FirstText(reply.content).value != ""
    ensures CallModelSpec(st, cfg) ==
            (Ok(FirstText(reply.content).value),
             LoopState(st.messages + [AssistantMessage(reply)], false, st.script[1..],
                       st.requests + [RequestFor(cfg, st.messages)]))
  {
    ProcessCharacterised(reply.content, reply.stopReason, cfg.tools, cfg.world, []);
    assert ProcessReply(reply, cfg.tools, cfg.world) == FinalText(FirstText(reply.content).value);
  }

  /** An empty final text also ends the loop: the flag is clear, so the result is the empty text. */
  lemma EmptyFinalTextStops(st: LoopState, cfg: Config, reply: Reply)
    requires st.pending && st.script != [] && st.script[0] == Answered(reply)
    requires reply.stopReason != ToolUseStop && FirstText(reply.content) == Some("")
    ensures CallModelSpec(st, cfg) ==
            (Ok(""), LoopState(st.messages + [AssistantMessage(reply)], false, st.script[1..],
                               st.requests + [RequestFor(cfg, st.messages)]))
  {
    ProcessCharacterised(reply.content, reply.stopReason, cfg.tools, cfg.world, []);
    assert ProcessReply(reply, cfg.tools, cfg.world) == FinalText("");
    var after := LoopState(st.messages + [AssistantMessage(reply)], false, st.script[1..],
                           st.requests + [RequestFor(cfg, st.messages)]);
    assert LoopPass(st, cfg) == Again(after);
  }

  /**
   * Any other reply stores the reply and then one user turn with a result for
   * every tool request, in order (none at all for a reply without text or
   * tool requests), and the loop goes on with the flag set.
   */
  lemma ToolTurnContinues(st: LoopState, cfg: Config, reply: Reply)
    requires st.pending && st.script != [] && st.script[0] == Answered(reply)
    requires reply.stopReason == ToolUseStop || FirstText(reply.content).None?
    ensures CallModelSpec(st, cfg) ==
            CallModelSpec(
              LoopState(st.messages + [AssistantMessage(reply),
                                       Message(User, RunAll(cfg.tools, ToolUses(reply.content), cfg.world))],
                        true, st.script[1..], st.requests + [RequestFor(cfg, st.messages)]),
              cfg)
  {
    var results := RunAll(cfg.tools, ToolUses(reply.content), cfg.world);
    ProcessCharacterised(reply.content, reply.stopReason, cfg.tools, cfg.world, []);
    assert [] + results == results;
    assert ProcessReply(reply, cfg.tools, cfg.world) == ToolTurn(results);
    var stored := st.messages + [AssistantMessage(reply)];
    var next := LoopState(stored + [Message(User, results)], true, st.script[1..],
                          st.requests + [RequestFor(cfg, st.messages)]);
    assert LoopPass(st, cfg) == Again(next);
    assert stored + [Message(User, results)] == st.messages + [AssistantMessage(reply), Message(User, results)];
  }

  /** One user turn, and a first reply that is plain text: that text after exactly one model call. */
  lemma NormalTermination(cfg: Config, question: string, answer: string, later: seq<ModelOutcome>)
    requires answer != ""
    ensures var reply := Reply([TextBlock(answer)], "end_turn");
            var r := CallModelSpec(LoopState([UserText(question)], true, [Answered(reply)] + later, []), cfg);
            r.0 == Ok(answer) && |r.1.requests| == 1 && r.1.script == later &&
            r.1.messages == [UserText(question), AssistantMessage(reply)]
  {
    var reply := Reply([TextBlock(answer)], "end_turn");
    FinalAnswerStops(LoopState([UserText(question)], true, [Answered(reply)] + later, []), cfg, reply);
  }

  /**
   * A first reply asking for the registered GitHub tool, then plain text: one
   * tool-result turn for that request, two model calls, the second text returned.
   */
  lemma MultiRound(cfg: Config, token: string, question: string, id: string, input: RawMessage, answer: string)
    requires cfg.tools == [GithubTool(token)]
    requires answer != ""
    ensures var first := Reply([ToolUseBlock(ToolUse(id, "github", input))], ToolUseStop);
            var second := Reply([TextBlock(answer)], "end_turn");
            var r := CallModelSpec(LoopState([UserText(question)], true, [Answered(first), Answered(second)], []), cfg);
            r.0 == Ok(answer) && |r.1.requests| == 2 && |r.1.messages| == 4 &&
            r.1.messages[2].role == User && |r.1.messages[2].content| == 1 &&
            r.1.messages[2].content[0].ToolResultBlock? && r.1.messages[2].content[0].toolUseId == id
  {
    var first := Reply([ToolUseBlock(ToolUse(id, "github", input))], ToolUseStop);
    var second := Reply([TextBlock(answer)], "end_turn");
    GithubTurn(cfg, token, question, id, input, [Answered(second)]);
    var results := RunAll(cfg.tools, [ToolUse(id, "github", input)], cfg.world);
    var next := LoopState([UserText(question), AssistantMessage(first), Message(User, results)], true,
                          [Answered(second)], [RequestFor(cfg, [UserText(question)])]);
    assert FirstText(second.content) == Some(answer);
    FinalAnswerStops(next, cfg, second);
  }

  /** The first pass of `MultiRound`: the GitHub request is answered by one result with its id, and the loop goes on. */
  lemma GithubTurn(cfg: Config, token: string, question: string, id: string, input: RawMessage,
                   rest: seq<ModelOutcome>)
    requires cfg.tools == [GithubTool(token)]
    ensures var first := Reply([ToolUseBlock(ToolUse(id, "github", input))], ToolUseStop);
            var results := RunAll(cfg.tools, [ToolUse(id, "github", input)], cfg.world);
            |results| == 1 && results[0].ToolResultBlock? && results[0].toolUseId == id &&
            CallModelSpec(LoopState([UserText(question)], true, [Answered(first)] + rest, []), cfg) ==
            CallModelSpec(LoopState([UserText(question), AssistantMessage(first), Message(User, results)], true,
                                    rest, [RequestFor(cfg, [UserText(question)])]), cfg)
  {
    var first := Reply([ToolUseBlock(ToolUse(id, "github", input))], ToolUseStop);
    var st := LoopState([UserText(question)], true, [Answered(first)] + rest, []);
    ToolTurnContinues(st, cfg, first);
    var uses := ToolUses(first.content);
    assert uses == [ToolUse(id, "github", input)];
    var results := RunAll(cfg.tools, uses, cfg.world);
    var after := LoopState(st.messages + [AssistantMessage(first), Message(User, results)], true, st.script[1..],
                           st.requests + [RequestFor(cfg, st.messages)]);
    assert after.messages == [UserText(question), AssistantMessage(first), Message(User, results)];
    assert after.script == rest;
    assert after.requests == [RequestFor(cfg, [UserText(question)])];
  }

  /** The model asks for "weather" when only the calendar is registered: an error result, and the loop goes on. */
  lemma UnknownToolScenario(url: string, id: string, input: RawMessage, w: World)
    ensures ProcessToolUseBlock([CalendarTool(url)], ToolUse(id, "weather", input), w) ==
            ToolResultBlock(id, NotInListText, true)
  {
  }

  /** The calendar called with year 1500: its validation message reaches the model as an error result. */
  lemma InvalidYearScenario(url: string, id: string, w: World)
    ensures var input := Wellformed(JObject(map["year" := JNumber(1500)]));
            ProcessToolUseBlock([CalendarTool(url)], ToolUse(id, "calendar", input), w) ==
            ToolResultBlock(id, InvalidArgumentsText("calendar", "year must be between 1900 and 2100"), true)
  {
    var input := Wellformed(JObject(map["year" := JNumber(1500)]));
    assert Calendar.DecodeInput(input) == Some(Calendar.CalendarInput(1500, 0, 0));
  }
}
