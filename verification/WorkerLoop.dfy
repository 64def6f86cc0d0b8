/** One worker turn (MEIZEX_ROUTER_WORKER/src/meizex_mrw/worker/engine.py): infer, run
    policy-gated tools, verify, retry, with hard limits. The provider, the tools, the checks on an
    answer and the auditor are arbitrary functions. */
module WorkerLoop {
  import opened Common
  import opened ToolHistory
  import Ordering

  datatype ToolMeta = ToolMeta(readOnly: bool, capabilities: set<string>)

  datatype Reply = ProviderError(detail: string) | Reply(content: string, calls: seq<Call>)

  datatype ToolOutcome = ToolText(text: string) | ToolFailed(error: string)

  /** One call the loop dealt with, run or not. */
  datatype Executed = Executed(name: string, ok: bool, text: string)

  /** The verdict of the format, contradiction and answer checks on a final answer: `note` is what
      the model is told when a retry is left, `reason` what is escalated when none is. */
  datatype Judgement = Accept | Revise(note: string, reason: string) | Reject(reason: string)

  /** Everything outside the loop. The counters let each of these answer differently every time. */
  datatype World = World(
    provider: (nat, seq<Message>, Option<string>) -> Reply, tool: (nat, Call) -> ToolOutcome,
    judge: (nat, string, seq<Executed>) -> Judgement, audit: (string, string, seq<Executed>) -> Option<string>)

  datatype Setup = Setup(
    request: string, selected: seq<string>, catalog: Option<map<string, ToolMeta>>, explicitLimit: Option<int>,
    profileLimit: Option<int>, maxRetries: int)

  datatype Outcome = Completed(content: string, audited: bool) | Failed(reason: string)

  /** One request to the provider: the message list and a forced tool, if any. */
  datatype Sent = Sent(messages: seq<Message>, forced: Option<string>)

  const DEFAULT_MAX_TOOL_ROUNDS := 3

  /** `_tool_round_limit`: the constructor's value, else the profile's, else the default. */
  function ToolRoundLimit(s: Setup): int {
    if s.explicitLimit.Some? then s.explicitLimit.value
    else if s.profileLimit.Some? then s.profileLimit.value
    else DEFAULT_MAX_TOOL_ROUNDS
  }

  function AtLeastZero(n: int): nat { if n < 0 then 0 else n }

  /** `_policy_block_reason`. */
  function BlockReason(name: string, s: Setup): Option<string> {
    if name !in s.selected then Some("tool was not offered to the model")
    else if s.catalog.None? || name !in s.catalog.value then Some("tool is not present in the catalog")
    else if !s.catalog.value[name].readOnly then Some("profile policy requires read-only tools")
    else if "shell" in s.catalog.value[name].capabilities then Some("profile policy forbids shell capability")
    else None
  }

  /** What may reach a tool server. */
  predicate Permitted(name: string, s: Setup) {
    && name in s.selected
    && s.catalog.Some? && name in s.catalog.value
    && s.catalog.value[name].readOnly && "shell" !in s.catalog.value[name].capabilities
  }

  // ---------------------------------------------------------------- what a conversation determines

  /** The calls of all tool turns, in order. */
  function CallsOf(blocks: seq<Block>): seq<Call> {
    if blocks == [] then []
    else CallsOf(blocks[..|blocks| - 1]) + (if blocks[|blocks| - 1].Turn? then blocks[|blocks| - 1].calls else [])
  }

  function Notes(blocks: seq<Block>): nat {
    if blocks == [] then 0 else Notes(blocks[..|blocks| - 1]) + (if blocks[|blocks| - 1].Note? then 1 else 0)
  }

  /** The calls that reach the tool server. */
  function Reaching(calls: seq<Call>, s: Setup): seq<Call> {
    if calls == [] then []
    else Reaching(calls[..|calls| - 1], s) + (if BlockReason(calls[|calls| - 1].name, s).None? then [calls[|calls| - 1]] else [])
  }

  /** Each tool that succeeded, in order of first use. */
  function Used(executed: seq<Executed>): seq<string> {
    if executed == [] then []
    else
      var before, e := Used(executed[..|executed| - 1]), executed[|executed| - 1];
      if e.ok && e.name !in before then before + [e.name] else before
  }

  lemma BlockReasonMeans(name: string, s: Setup)
    ensures BlockReason(name, s).None? <==> Permitted(name, s)
  {
  }

  lemma {:induction false} ReachingPermitted(calls: seq<Call>, s: Setup)
    ensures forall c :: c in Reaching(calls, s) ==> c in calls && Permitted(c.name, s)
  {
    if calls != [] {
      ReachingPermitted(calls[..|calls| - 1], s);
    }
  }

  lemma {:induction false} ReachingConcat(a: seq<Call>, b: seq<Call>, s: Setup)
    ensures Reaching(a + b, s) == Reaching(a, s) + Reaching(b, s)
  {
    if b == [] {
      assert a + b == a;
    } else {
      assert (a + b)[..|a + b| - 1] == a + b[..|b| - 1];
      ReachingConcat(a, b[..|b| - 1], s);
    }
  }

  lemma {:induction false} BlocksCounted(blocks: seq<Block>)
    ensures Turns(blocks) + Notes(blocks) == |blocks|
  {
    if blocks != [] {
      var front, last := blocks[..|blocks| - 1], blocks[|blocks| - 1];
      BlocksCounted(front);
      TurnsAppend(front, last);
      assert blocks == front + [last];
    }
  }

  /** What happens after an inference: the conversation grows by one block or the turn ends. */
  datatype Move = Say(block: Block) | Stop(outcome: Outcome)

  /** What one turn did, besides its outcome: the requests sent to the provider, the conversation,
      the calls that reached the tool server, all calls dealt with, and the tools that succeeded. */
  datatype Trace = Trace(sent: seq<Sent>, blocks: seq<Block>, invoked: seq<Call>, executed: seq<Executed>, used: seq<string>)

  class Worker {
    const builder: ContextBuilder
    const world: World

    constructor (builder: ContextBuilder, world: World)
      ensures this.builder == builder && this.world == world
    {
      this.builder, this.world := builder, world;
    }

    // -------------------------------------------------------------- the turn as a function

    /** The text the model gets back for a call, `n` calls having reached the server before. */
    function TextOf(call: Call, s: Setup, n: nat): string {
      var block := BlockReason(call.name, s);
      if block.Some? then "Policy blocked this tool call (" + block.value + "); nothing was executed."
      else
        match world.tool(n, call)
        case ToolFailed(error) => "Tool failed: " + error + "; nothing was executed."
        case ToolText(text) => text
    }

    function ExecutionOf(call: Call, s: Setup, n: nat): Executed {
      if BlockReason(call.name, s).Some? then Executed(call.name, false, "")
      else
        match world.tool(n, call)
        case ToolFailed(_) => Executed(call.name, false, "")
        case ToolText(text) => Executed(call.name, true, text)
    }

    function Answers(calls: seq<Call>, s: Setup, n: nat): (r: seq<string>)
      ensures |r| == |calls|
      ensures forall i :: 0 <= i < |calls| ==> r[i] == TextOf(calls[i], s, n + |Reaching(calls[..i], s)|)
    {
      seq(|calls|, i requires 0 <= i < |calls| => TextOf(calls[i], s, n + |Reaching(calls[..i], s)|))
    }

    function Executions(calls: seq<Call>, s: Setup, n: nat): (r: seq<Executed>)
      ensures |r| == |calls|
      ensures forall i :: 0 <= i < |calls| ==> r[i] == ExecutionOf(calls[i], s, n + |Reaching(calls[..i], s)|)
    {
      seq(|calls|, i requires 0 <= i < |calls| => ExecutionOf(calls[i], s, n + |Reaching(calls[..i], s)|))
    }

    /** The request sent when the conversation is `blocks`: the system and user messages and the
        window of the conversation. A tool is forced only while no tool turn has happened. */
    function Request(blocks: seq<Block>, s: Setup): Sent
      requires AllCoherent(blocks)
    {
      Sent(History(builder.systemInstruction, s.request, Window(blocks, builder.maxToolResultTurns)),
           if Turns(blocks) == 0 && |s.selected| == 1 then Some(s.selected[0]) else None)
    }

    function ReplyAfter(blocks: seq<Block>, s: Setup): Reply
      requires AllCoherent(blocks)
    {
      var sent := Request(blocks, s);
      world.provider(|blocks|, sent.messages, sent.forced)
    }

    function EscalateOrFail(reason: string, answer: string, executed: seq<Executed>): Outcome {
      var audited := world.audit(reason, answer, executed);
      if audited.Some? then Completed(audited.value, true) else Failed(reason)
    }

    /** What the loop does with a reply. */
    function MoveOn(reply: Reply, blocks: seq<Block>, executed: seq<Executed>, s: Setup): Move {
      match reply
      case ProviderError(detail) => Stop(Failed("provider error: " + detail))
      case Reply(content, calls) =>
        if calls == [] then
          match world.judge(|blocks|, content, executed)
          case Accept => Stop(Completed(content, false))
          case Reject(reason) => Stop(EscalateOrFail(reason, content, executed))
          case Revise(note, reason) =>
            if Notes(blocks) < s.maxRetries then Say(Note(note)) else Stop(EscalateOrFail(reason, content, executed))
        else if s.selected == [] then Stop(Failed("model requested tools but none were offered"))
        else if Turns(blocks) >= ToolRoundLimit(s) then Stop(Failed("max_tool_rounds exceeded"))
        else Say(Turn(calls, builder.ClipAll(Answers(calls, s, |Reaching(CallsOf(blocks), s)|))))
    }

    function MoveAfter(blocks: seq<Block>, s: Setup): Move
      requires AllCoherent(blocks)
    {
      MoveOn(ReplyAfter(blocks, s), blocks, Executions(CallsOf(blocks), s, 0), s)
    }

    /** Every block is what the move after the ones before it said. */
    ghost predicate Grew(blocks: seq<Block>, s: Setup) {
      && AllCoherent(blocks)
      && forall i :: 0 <= i < |blocks| ==> AllCoherent(blocks[..i]) && MoveAfter(blocks[..i], s) == Say(blocks[i])
    }

    /** Every request is the one that the conversation before it calls for. */
    ghost predicate Asked(sent: seq<Sent>, blocks: seq<Block>, s: Setup) {
      forall i :: 0 <= i < |sent| ==> i <= |blocks| && AllCoherent(blocks[..i]) && sent[i] == Request(blocks[..i], s)
    }

    /** The tools ran as the calls of the conversation say. */
    ghost predicate ToolsRan(t: Trace, s: Setup) {
      && t.invoked == Reaching(CallsOf(t.blocks), s)
      && t.executed == Executions(CallsOf(t.blocks), s, 0)
      && t.used == Used(t.executed)
    }

    /** The trace of a finished turn: one more request than blocks, answered by the final move. */
    ghost predicate Finished(t: Trace, outcome: Outcome, s: Setup) {
      && Grew(t.blocks, s) && Asked(t.sent, t.blocks, s) && ToolsRan(t, s)
      && |t.sent| == |t.blocks| + 1
      && MoveAfter(t.blocks, s) == Stop(outcome)
    }

    /** Between two passes of the loop, `pending` requests of which await the reply: the message list
        is the windowed history of the conversation. */
    ghost predicate Live(t: Trace, messages: seq<Message>, s: Setup, pending: nat) {
      && Grew(t.blocks, s) && Asked(t.sent, t.blocks, s) && ToolsRan(t, s) && |t.sent| == |t.blocks| + pending
      && messages == History(builder.systemInstruction, s.request, Window(t.blocks, builder.maxToolResultTurns))
    }

    lemma NothingYet(messages: seq<Message>, s: Setup)
      requires messages == History(builder.systemInstruction, s.request, [])
      ensures Live(Trace([], [], [], [], []), messages, s, 0) && Turns([]) == 0 && Notes([]) == 0
    {
      assert Window([], builder.maxToolResultTurns) == [];
    }

    /** Sending what the conversation calls for: the reply and the move that follows. */
    lemma Asking(t: Trace, messages: seq<Message>, forced: Option<string>, s: Setup)
      requires Live(t, messages, s, 0)
      requires forced == if Turns(t.blocks) == 0 && |s.selected| == 1 then Some(s.selected[0]) else None
      ensures Live(t.(sent := t.sent + [Sent(messages, forced)]), messages, s, 1)
      ensures AllCoherent(t.blocks) && |t.sent| == |t.blocks|
      ensures MoveAfter(t.blocks, s) == MoveOn(world.provider(|t.sent|, messages, forced), t.blocks, t.executed, s)
    {
      AskedLonger(t.sent, t.blocks, s);
      hide MoveOn, Asked, Executions, CallsOf, Reaching, Used, History, Window, Turns;
    }

    lemma AskedLonger(sent: seq<Sent>, blocks: seq<Block>, s: Setup)
      requires AllCoherent(blocks) && Asked(sent, blocks, s) && |sent| == |blocks|
      ensures Asked(sent + [Request(blocks, s)], blocks, s)
    {
      hide Request;
      assert blocks[..|blocks|] == blocks;
    }

    /** Appending the block that the next move says. */
    lemma SayingExtends(blocks: seq<Block>, sent: seq<Sent>, b: Block, s: Setup)
      requires Grew(blocks, s) && Asked(sent, blocks, s) && Coherent(b) && MoveAfter(blocks, s) == Say(b)
      ensures Grew(blocks + [b], s) && Asked(sent, blocks + [b], s)
    {
      hide MoveAfter, Request;
      var more := blocks + [b];
      assert forall i :: 0 <= i <= |blocks| ==> more[..i] == blocks[..i];
      assert blocks[..|blocks|] == blocks;
    }

    lemma ExecutionAt(a: seq<Call>, b: seq<Call>, s: Setup, i: nat)
      requires i < |a + b|
      ensures Executions(a + b, s, 0)[i] == (Executions(a, s, 0) + Executions(b, s, |Reaching(a, s)|))[i]
    {
      hide *;
      if i < |a| {
        assert (a + b)[..i] == a[..i] && (a + b)[i] == a[i];
      } else {
        var j := i - |a|;
        assert (a + b)[..i] == a + b[..j] && (a + b)[i] == b[j];
        ReachingConcat(a, b[..j], s);
        assert Executions(b, s, |Reaching(a, s)|)[j] == ExecutionOf(b[j], s, |Reaching(a, s)| + |Reaching(b[..j], s)|);
      }
    }

    lemma ExecutionsConcat(a: seq<Call>, b: seq<Call>, s: Setup)
      ensures Executions(a + b, s, 0) == Executions(a, s, 0) + Executions(b, s, |Reaching(a, s)|)
    {
      forall i | 0 <= i < |a + b|
        ensures Executions(a + b, s, 0)[i] == (Executions(a, s, 0) + Executions(b, s, |Reaching(a, s)|))[i]
      {
        ExecutionAt(a, b, s, i);
      }
      hide *;
    }

    lemma CallsOfBlock(blocks: seq<Block>, b: Block)
      ensures CallsOf(blocks + [b]) == CallsOf(blocks) + (if b.Turn? then b.calls else [])
      ensures Notes(blocks + [b]) == Notes(blocks) + (if b.Note? then 1 else 0)
    {
      assert (blocks + [b])[..|blocks|] == blocks;
    }

    // -------------------------------------------------------------- the loop

    /** One call of a tool round: a blocked call never reaches the server. */
    method RunCall(call: Call, s: Setup, n: nat) returns (text: string, e: Executed, reached: bool)
      ensures reached <==> Permitted(call.name, s)
      ensures text == TextOf(call, s, n) && e == ExecutionOf(call, s, n)
    {
      var block := BlockReason(call.name, s);
      if block.Some? {
        return "Policy blocked this tool call (" + block.value + "); nothing was executed.", Executed(call.name, false, ""), false;
      }
      var outcome := world.tool(n, call);
      match outcome {
        case ToolFailed(error) =>
          return "Tool failed: " + error + "; nothing was executed.", Executed(call.name, false, ""), true;
        case ToolText(result) =>
          return result, Executed(call.name, true, result), true;
      }
    }

    lemma ReachingStep(calls: seq<Call>, i: nat, s: Setup)
      requires i < |calls|
      ensures Reaching(calls[..i + 1], s) == Reaching(calls[..i], s) + (if Permitted(calls[i].name, s) then [calls[i]] else [])
    {
      assert calls[..i + 1][..i] == calls[..i];
      BlockReasonMeans(calls[i].name, s);
    }

    /** One call and its entries in the trace. */
    method CallTool(call: Call, s: Setup, before: Trace) returns (text: string, t: Trace)
      requires before.used == Used(before.executed)
      ensures text == TextOf(call, s, |before.invoked|)
      ensures t.invoked == before.invoked + (if Permitted(call.name, s) then [call] else [])
      ensures t.executed == before.executed + [ExecutionOf(call, s, |before.invoked|)] && t.used == Used(t.executed)
      ensures t.sent == before.sent && t.blocks == before.blocks
    {
      hide *;
      t := before;
      var e, reached;
      text, e, reached := RunCall(call, s, |before.invoked|);
      UsedStep(before.executed, e);
      if reached {
        t := t.(invoked := t.invoked + [call]);
      }
      t := t.(executed := t.executed + [e]);
      if e.ok && e.name !in t.used {
        t := t.(used := t.used + [e.name]);
      }
    }

    lemma RoundStep(calls: seq<Call>, s: Setup, n: nat, i: nat)
      requires i < |calls|
      ensures Answers(calls, s, n)[..i + 1] == Answers(calls, s, n)[..i] + [TextOf(calls[i], s, n + |Reaching(calls[..i], s)|)]
      ensures Executions(calls, s, n)[..i + 1] == Executions(calls, s, n)[..i] + [ExecutionOf(calls[i], s, n + |Reaching(calls[..i], s)|)]
    {
      hide *;
      Ordering.TakeOneMore(Answers(calls, s, n), i);
      Ordering.TakeOneMore(Executions(calls, s, n), i);
    }

    lemma RoundWhole(calls: seq<Call>, s: Setup, n: nat)
      ensures calls[..|calls|] == calls && Answers(calls, s, n)[..|calls|] == Answers(calls, s, n)
      ensures Executions(calls, s, n)[..|calls|] == Executions(calls, s, n)
      ensures Reaching(calls[..0], s) == []
    {
    }

    /** All calls of one round, in provider order: each gets exactly its own result. */
    method RunCalls(calls: seq<Call>, s: Setup, before: Trace) returns (texts: seq<string>, t: Trace)
      requires before.used == Used(before.executed)
      ensures texts == Answers(calls, s, |before.invoked|)
      ensures t.invoked == before.invoked + Reaching(calls, s)
      ensures t.executed == before.executed + Executions(calls, s, |before.invoked|) && t.used == Used(t.executed)
      ensures t.sent == before.sent && t.blocks == before.blocks
    {
      hide *;
      texts, t := [], before;
      RoundWhole(calls, s, |before.invoked|);
      var i := 0;
      while i < |calls|
        invariant 0 <= i <= |calls|
        invariant texts == Answers(calls, s, |before.invoked|)[..i]
        invariant t.invoked == before.invoked + Reaching(calls[..i], s)
        invariant t.executed == before.executed + Executions(calls, s, |before.invoked|)[..i] && t.used == Used(t.executed)
        invariant t.sent == before.sent && t.blocks == before.blocks
      {
        RoundStep(calls, s, |before.invoked|, i);
        ReachingStep(calls, i, s);
        var text;
        text, t := CallTool(calls[i], s, t);
        texts := texts + [text];
        i := i + 1;
      }
    }

    lemma UsedStep(executed: seq<Executed>, e: Executed)
      ensures Used(executed + [e]) == if e.ok && e.name !in Used(executed) then Used(executed) + [e.name] else Used(executed)
    {
      assert (executed + [e])[..|executed|] == executed;
    }

    /** One tool round: the calls run, and their turn, with their clipped results, joins the history. */
    method ToolRound(messages: seq<Message>, calls: seq<Call>, s: Setup, before: Trace) returns (after: seq<Message>, t: Trace)
      requires calls != [] && Live(before, messages, s, 1)
      requires MoveAfter(before.blocks, s) == Say(Turn(calls, builder.ClipAll(Answers(calls, s, |Reaching(CallsOf(before.blocks), s)|))))
      ensures t.blocks == before.blocks + [Turn(calls, builder.ClipAll(Answers(calls, s, |Reaching(CallsOf(before.blocks), s)|)))]
      ensures Live(t, after, s, 0) && t.sent == before.sent
      ensures Turns(t.blocks) == Turns(before.blocks) + 1 && Notes(t.blocks) == Notes(before.blocks)
    {
      assert AllCoherent(before.blocks);
      hide History, Turns, Window, CallsOf, Reaching, Executions, Answers, Used, MoveAfter, Grew, Asked;
      var texts;
      texts, t := RunCalls(calls, s, before);
      var turn := Turn(calls, builder.ClipAll(texts));
      TurnAdded(before.blocks, builder.systemInstruction, s.request, builder.maxToolResultTurns, calls, builder.ClipAll(texts));
      var truncated, dropped;
      after, truncated, dropped := builder.AppendToolTurn(messages, calls, texts);
      t := t.(blocks := before.blocks + [turn]);
      CallsOfBlock(before.blocks, turn);
      SayingExtends(before.blocks, before.sent, turn, s);
      ReachingConcat(CallsOf(before.blocks), calls, s);
      ExecutionsConcat(CallsOf(before.blocks), calls, s);
    }

    /** The `while True` loop of `run`. Whatever provider, tools, checks and auditor do, it ends after
        at most limit + max_retries + 1 inferences, and its whole trace is the one turn they determine. */
    method Run(s: Setup) returns (outcome: Outcome, t: Trace)
      ensures Finished(t, outcome, s)
      ensures |t.sent| <= AtLeastZero(ToolRoundLimit(s)) + AtLeastZero(s.maxRetries) + 1
    {
      var messages := builder.Build(s.request);
      NothingYet(messages, s);
      Limits(s);
      hide *;
      t := Trace([], [], [], [], []);
      var toolRounds, retriesLeft := 0, s.maxRetries;
      while true
        invariant Live(t, messages, s, 0)
        invariant toolRounds == Turns(t.blocks) <= AtLeastZero(ToolRoundLimit(s))
        invariant retriesLeft == s.maxRetries - Notes(t.blocks) && Notes(t.blocks) <= AtLeastZero(s.maxRetries)
        decreases AtLeastZero(ToolRoundLimit(s)) + AtLeastZero(s.maxRetries) - toolRounds - Notes(t.blocks)
      {
        BlocksCounted(t.blocks);
        var forced := if toolRounds == 0 && |s.selected| == 1 then Some(s.selected[0]) else None;
        var reply := world.provider(|t.sent|, messages, forced);
        Asking(t, messages, forced, s);
        t := t.(sent := t.sent + [Sent(messages, forced)]);
        if reply.ProviderError? {
          MoveOnError(reply, t.blocks, t.executed, s);
          outcome := Failed("provider error: " + reply.detail);
          Ending(t, messages, outcome, s);
          return;
        }
        if reply.calls == [] {
          var ended, note := CheckAnswer(reply.content, messages, retriesLeft, s, t);
          if ended.Some? {
            return ended.value, t;
          }
          retriesLeft := retriesLeft - 1;
          messages, t := NoteRound(messages, note, s, t);
        } else {
          MoveOnCalls(reply, t.blocks, t.executed, s);
          if s.selected == [] {
            outcome := Failed("model requested tools but none were offered");
            Ending(t, messages, outcome, s);
            return;
          }
          toolRounds := toolRounds + 1;
          if toolRounds > ToolRoundLimit(s) {
            outcome := Failed("max_tool_rounds exceeded");
            Ending(t, messages, outcome, s);
            return;
          }
          messages, t := ToolRound(messages, reply.calls, s, t);
        }
      }
    }

    /** A reply without calls: the checks accept it, ask for another attempt, or give it to the auditor. */
    method CheckAnswer(content: string, messages: seq<Message>, retriesLeft: int, s: Setup, t: Trace)
      returns (ended: Option<Outcome>, note: string)
      requires Live(t, messages, s, 1) && retriesLeft == s.maxRetries - Notes(t.blocks)
      requires MoveAfter(t.blocks, s) == MoveOn(Reply(content, []), t.blocks, t.executed, s)
      ensures ended.Some? ==> Finished(t, ended.value, s)
      ensures ended.None? ==> retriesLeft > 0 && MoveAfter(t.blocks, s) == Say(Note(note))
    {
      MoveOnAnswer(content, t.blocks, t.executed, s);
      hide *;
      ended, note := None, "";
      var judgement := world.judge(|t.blocks|, content, t.executed);
      if judgement.Accept? {
        ended := Some(Completed(content, false));
        Ending(t, messages, ended.value, s);
      } else if judgement.Reject? || retriesLeft <= 0 {
        ended := Some(EscalateOrFail(judgement.reason, content, t.executed));
        Ending(t, messages, ended.value, s);
      } else {
        note := judgement.note;
      }
    }

    lemma Limits(s: Setup)
      ensures AtLeastZero(ToolRoundLimit(s)) >= ToolRoundLimit(s) && AtLeastZero(s.maxRetries) >= s.maxRetries
    {
    }

    lemma MoveOnError(reply: Reply, blocks: seq<Block>, executed: seq<Executed>, s: Setup)
      requires reply.ProviderError?
      ensures MoveOn(reply, blocks, executed, s) == Stop(Failed("provider error: " + reply.detail))
    {
    }

    lemma MoveOnAnswer(content: string, blocks: seq<Block>, executed: seq<Executed>, s: Setup)
      ensures var move, j := MoveOn(Reply(content, []), blocks, executed, s), world.judge(|blocks|, content, executed);
              && (j.Accept? ==> move == Stop(Completed(content, false)))
              && (j.Reject? || (j.Revise? && Notes(blocks) >= s.maxRetries) ==> move == Stop(EscalateOrFail(j.reason, content, executed)))
              && (j.Revise? && Notes(blocks) < s.maxRetries ==> move == Say(Note(j.note)))
    {
    }

    lemma MoveOnCalls(reply: Reply, blocks: seq<Block>, executed: seq<Executed>, s: Setup)
      requires reply.Reply? && reply.calls != []
      ensures var move := MoveOn(reply, blocks, executed, s);
              if s.selected == [] then move == Stop(Failed("model requested tools but none were offered"))
              else if Turns(blocks) >= ToolRoundLimit(s) then move == Stop(Failed("max_tool_rounds exceeded"))
              else move == Say(Turn(reply.calls, builder.ClipAll(Answers(reply.calls, s, |Reaching(CallsOf(blocks), s)|))))
    {
    }

    lemma Ending(t: Trace, messages: seq<Message>, outcome: Outcome, s: Setup)
      requires Live(t, messages, s, 1) && MoveAfter(t.blocks, s) == Stop(outcome)
      ensures Finished(t, outcome, s)
    {
    }

    /** A retry: the note joins the history. */
    method NoteRound(messages: seq<Message>, note: string, s: Setup, before: Trace) returns (after: seq<Message>, t: Trace)
      requires Live(before, messages, s, 1) && MoveAfter(before.blocks, s) == Say(Note(note))
      ensures t == before.(blocks := before.blocks + [Note(note)]) && Live(t, after, s, 0)
      ensures Turns(t.blocks) == Turns(before.blocks) && Notes(t.blocks) == Notes(before.blocks) + 1
    {
      NoteAdded(before.blocks, builder.systemInstruction, s.request, builder.maxToolResultTurns, note);
      CallsOfBlock(before.blocks, Note(note));
      SayingExtends(before.blocks, before.sent, Note(note), s);
      hide History, Window, MoveAfter, Request, CallsOf, Turns, Notes;
      after := builder.AppendUserNote(messages, note);
      t := before.(blocks := before.blocks + [Note(note)]);
      assert CallsOf(t.blocks) == CallsOf(before.blocks) + [] == CallsOf(before.blocks);
    }

    // -------------------------------------------------------------- what a finished turn means

    /** The turn is determined: no two different traces or outcomes fit the same world and setup. */
    lemma TurnIsDetermined(t: Trace, outcome: Outcome, u: Trace, other: Outcome, s: Setup)
      requires Finished(t, outcome, s) && Finished(u, other, s)
      ensures t == u && outcome == other
    {
      hide MoveAfter, Request, ToolsRan;
      var n := if |t.blocks| <= |u.blocks| then |t.blocks| else |u.blocks|;
      SamePrefix(t.blocks, u.blocks, s, n);
      assert t.blocks[..|t.blocks|] == t.blocks && u.blocks[..|u.blocks|] == u.blocks;
      assert t.blocks == u.blocks;
      SameTools(t, u, s);
      assert t.sent == u.sent;
    }

    lemma SameTools(t: Trace, u: Trace, s: Setup)
      requires ToolsRan(t, s) && ToolsRan(u, s) && t.blocks == u.blocks
      ensures t.invoked == u.invoked && t.executed == u.executed && t.used == u.used
    {
    }

    lemma {:induction false} SamePrefix(a: seq<Block>, b: seq<Block>, s: Setup, n: nat)
      requires n <= |a| && n <= |b| && Grew(a, s) && Grew(b, s)
      ensures a[..n] == b[..n]
    {
      hide MoveAfter;
      if n > 0 {
        SamePrefix(a, b, s, n - 1);
        assert a[..n] == a[..n - 1] + [a[n - 1]] && b[..n] == b[..n - 1] + [b[n - 1]];
      }
    }

    /** Every tool that ran was selected, is in the catalog, is read-only and has no shell capability,
        and was asked for by the model; without selected tools none runs. */
    lemma OnlyPermittedToolsRun(t: Trace, outcome: Outcome, s: Setup)
      requires Finished(t, outcome, s)
      ensures forall c :: c in t.invoked ==> Permitted(c.name, s) && c in CallsOf(t.blocks)
      ensures s.selected == [] ==> t.invoked == []
    {
      hide MoveAfter, Request;
      ReachingPermitted(CallsOf(t.blocks), s);
      if t.invoked != [] {
        assert t.invoked[0] in t.invoked;
      }
    }

    /** An answer that no auditor gave is the last reply's, and the checks accepted it with all tool
        results of the turn at hand. */
    lemma UnauditedAnswersAreAccepted(t: Trace, outcome: Outcome, s: Setup)
      requires Finished(t, outcome, s) && outcome.Completed? && !outcome.audited
      ensures ReplyAfter(t.blocks, s) == Reply(outcome.content, [])
      ensures world.judge(|t.sent| - 1, outcome.content, t.executed) == Accept
    {
      assert AllCoherent(t.blocks);
      hide Request, Executions, Grew, Asked, AllCoherent;
      var reply := ReplyAfter(t.blocks, s);
      hide ReplyAfter;
      assert MoveOn(reply, t.blocks, t.executed, s) == Stop(outcome);
      AcceptedMove(reply, t.blocks, t.executed, s, outcome);
    }

    lemma AcceptedMove(reply: Reply, blocks: seq<Block>, executed: seq<Executed>, s: Setup, outcome: Outcome)
      requires MoveOn(reply, blocks, executed, s) == Stop(outcome) && outcome.Completed? && !outcome.audited
      ensures reply == Reply(outcome.content, []) && world.judge(|blocks|, outcome.content, executed) == Accept
    {
    }

    /** No request ever holds more than the configured number of tool turns. */
    lemma SentWindowsAreBounded(t: Trace, outcome: Outcome, s: Setup, i: nat)
      requires Finished(t, outcome, s) && i < |t.sent|
      ensures i <= |t.blocks| && AllCoherent(t.blocks[..i]) && t.sent[i] == Request(t.blocks[..i], s)
      ensures Turns(Window(t.blocks[..i], builder.maxToolResultTurns)) <= builder.maxToolResultTurns
    {
      hide MoveAfter, Request, ToolsRan;
      WindowAppend(t.blocks[..i], Note(""), builder.maxToolResultTurns);
    }
  }

  lemma NoteAdded(blocks: seq<Block>, system: string, request: string, max: nat, note: string)
    requires AllCoherent(blocks)
    ensures History(system, request, Window(blocks + [Note(note)], max))
         == History(system, request, Window(blocks, max)) + [UserMessage(note)]
    ensures Turns(blocks + [Note(note)]) == Turns(blocks)
  {
    WindowAppendNote(blocks, note, max);
    FlattenAppend(Window(blocks, max), Note(note));
    TurnsAppend(blocks, Note(note));
  }

  lemma TurnAdded(blocks: seq<Block>, system: string, request: string, max: nat, calls: seq<Call>, texts: seq<string>)
    requires AllCoherent(blocks) && calls != [] && |texts| == |calls|
    ensures AllCoherent(blocks + [Turn(calls, texts)])
    ensures Trimmed(History(system, request, Window(blocks, max)) + ([CallMessage(calls)] + ToolMessages(calls, texts)), max).0
         == History(system, request, Window(blocks + [Turn(calls, texts)], max))
    ensures Turns(blocks + [Turn(calls, texts)]) == Turns(blocks) + 1
  {
    var turn := Turn(calls, texts);
    assert BlockMessages(turn) == [CallMessage(calls)] + ToolMessages(calls, texts);
    TurnsAppend(blocks, turn);
    assert AllCoherent(blocks + [turn]);
    hide Window, Turns, Flatten, Trimmed, BlockMessages, ToolMessages;
    HistoryMore(system, request, Window(blocks, max), turn);
    TrimmedHistory(system, request, Window(blocks, max) + [turn], max);
    WindowAppend(blocks, turn, max);
    hide History, AllCoherent;
  }

  lemma HistoryMore(system: string, request: string, blocks: seq<Block>, b: Block)
    requires AllCoherent(blocks) && Coherent(b)
    ensures AllCoherent(blocks + [b]) && History(system, request, blocks) + BlockMessages(b) == History(system, request, blocks + [b])
  {
    FlattenAppend(blocks, b);
    assert AllCoherent(blocks + [b]);
    hide Flatten, BlockMessages, AllCoherent, Coherent;
    Regroup([SystemMessage(system), UserMessage(request)], Flatten(blocks), BlockMessages(b));
  }

  lemma Regroup<T>(a: seq<T>, b: seq<T>, c: seq<T>)
    ensures a + b + c == a + (b + c)
  {
  }
}
