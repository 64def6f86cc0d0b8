/** What a finished worker turn shows (worker/engine.py:517-850), in terms of the provider, the tools,
    the checks and the auditor alone. */
module WorkerTrace {
  import opened Common
  import opened ToolHistory
  import opened WorkerLoop

  /** How many of the calls may reach the tool server. */
  function CountPermitted(calls: seq<Call>, s: Setup): nat {
    if calls == [] then 0 else CountPermitted(calls[..|calls| - 1], s) + (if Permitted(calls[|calls| - 1].name, s) then 1 else 0)
  }

  lemma {:induction false} ReachingCount(calls: seq<Call>, s: Setup)
    ensures |Reaching(calls, s)| == CountPermitted(calls, s)
  {
    if calls != [] {
      ReachingCount(calls[..|calls| - 1], s);
      BlockReasonMeans(calls[|calls| - 1].name, s);
    }
  }

  /** The first of the four demands that a blocked tool does not meet. */
  ghost predicate Why(name: string, s: Setup, reason: string) {
    var known := s.catalog.Some? && name in s.catalog.value;
    && (reason == "tool was not offered to the model" <==> name !in s.selected)
    && (reason == "tool is not present in the catalog" <==> name in s.selected && !known)
    && (reason == "profile policy requires read-only tools" <==> name in s.selected && known && !s.catalog.value[name].readOnly)
    && (reason == "profile policy forbids shell capability" <==>
          name in s.selected && known && s.catalog.value[name].readOnly && "shell" in s.catalog.value[name].capabilities)
  }

  lemma ReasonReads(name: string, s: Setup)
    requires !Permitted(name, s)
    ensures BlockReason(name, s).Some? && Why(name, s, BlockReason(name, s).value)
  {
    assert |"tool was not offered to the model"| != |"tool is not present in the catalog"|;
    assert |"profile policy requires read-only tools"| == |"profile policy forbids shell capability"|
           && "profile policy requires read-only tools"[15] != "profile policy forbids shell capability"[15];
    assert |"tool was not offered to the model"| < 39 && |"tool is not present in the catalog"| < 39
           && |"profile policy requires read-only tools"| == 39;
  }

  /** What there is to say to `call`, `n` calls having reached the server before: the tool's answer, or
      why there is none. */
  ghost predicate FullText(w: Worker, s: Setup, call: Call, n: nat, full: string) {
    if !Permitted(call.name, s) then
      exists reason: string :: Why(call.name, s, reason) && full == "Policy blocked this tool call (" + reason + "); nothing was executed."
    else
      match w.world.tool(n, call)
      case ToolText(answer) => full == answer
      case ToolFailed(error) => full == "Tool failed: " + error + "; nothing was executed."
  }

  /** `text` is what the model is shown of it: all that fits, or the beginning and a marker. */
  ghost predicate Shows(w: Worker, s: Setup, call: Call, n: nat, text: string) {
    exists full: string ::
      && FullText(w, s, call, n, full)
      && text == if |full| <= w.builder.toolResultMaxChars then full else full[..w.builder.toolResultMaxChars] + "\n...[truncated]"
  }

  lemma TextIsFull(w: Worker, s: Setup, call: Call, n: nat)
    ensures FullText(w, s, call, n, w.TextOf(call, s, n))
  {
    BlockReasonMeans(call.name, s);
    if !Permitted(call.name, s) { ReasonReads(call.name, s); }
    hide Permitted, BlockReason, Why;
    var block := BlockReason(call.name, s);
    if block.Some? {
      assert w.TextOf(call, s, n) == "Policy blocked this tool call (" + block.value + "); nothing was executed.";
    }
  }

  lemma ClippedShows(w: Worker, s: Setup, call: Call, n: nat)
    ensures Shows(w, s, call, n, w.builder.Clip(w.TextOf(call, s, n)))
  {
    TextIsFull(w, s, call, n);
    hide FullText, w.TextOf;
    ghost var full := w.TextOf(call, s, n);
    assert FullText(w, s, call, n, full);
  }

  function Limit(s: Setup): int {
    match s.explicitLimit
    case Some(limit) => limit
    case None => if s.profileLimit.Some? then s.profileLimit.value else 3
  }

  /** The `i`-th reply was the block of the conversation at `i`: calls, all of which were answered, or
      an answer that the checks sent back. */
  ghost predicate RoundReads(w: Worker, t: Trace, s: Setup, i: nat)
    requires i < |t.blocks| && i < |t.sent|
  {
    var reply := w.world.provider(i, t.sent[i].messages, t.sent[i].forced);
    var calls := CallsOf(t.blocks[..i]);
    && reply.Reply?
    && (reply.calls != [] ==>
          && t.blocks[i].Turn? && t.blocks[i].calls == reply.calls && |t.blocks[i].texts| == |reply.calls|
          && s.selected != [] && Turns(t.blocks[..i]) < Limit(s)
          && forall j :: 0 <= j < |reply.calls| ==>
               Shows(w, s, reply.calls[j], CountPermitted(calls, s) + CountPermitted(reply.calls[..j], s), t.blocks[i].texts[j]))
    && (reply.calls == [] ==>
          && t.blocks[i].Note? && Notes(t.blocks[..i]) < s.maxRetries
          && |calls| <= |t.executed|
          && exists reason :: w.world.judge(i, reply.content, t.executed[..|calls|]) == Revise(t.blocks[i].text, reason))
  }

  ghost predicate Escalated(w: Worker, t: Trace, outcome: Outcome, reason: string, answer: string) {
    match w.world.audit(reason, answer, t.executed)
    case Some(audited) => outcome == Completed(audited, true)
    case None => outcome == Failed(reason)
  }

  /** The last reply ended the turn. */
  ghost predicate EndReads(w: Worker, t: Trace, outcome: Outcome, s: Setup)
    requires |t.sent| == |t.blocks| + 1
  {
    var n := |t.blocks|;
    match w.world.provider(n, t.sent[n].messages, t.sent[n].forced)
    case ProviderError(detail) => outcome == Failed("provider error: " + detail)
    case Reply(content, calls) =>
      if calls != [] then
        outcome == Failed(if s.selected == [] then "model requested tools but none were offered" else "max_tool_rounds exceeded")
        && (s.selected == [] || Turns(t.blocks) >= Limit(s))
      else
        match w.world.judge(n, content, t.executed)
        case Accept => outcome == Completed(content, false)
        case Reject(reason) => Escalated(w, t, outcome, reason, content)
        case Revise(_, reason) => Notes(t.blocks) >= s.maxRetries && Escalated(w, t, outcome, reason, content)
  }

  /** What each request carried: the instruction, the request, and what is shown of the conversation
      so far; the one selected tool is forced until a tool round has happened. */
  ghost predicate RequestReads(w: Worker, t: Trace, s: Setup, i: nat)
    requires i < |t.sent| && i <= |t.blocks| && AllCoherent(t.blocks[..i])
  {
    && t.sent[i].messages == [Message(System, w.builder.systemInstruction, [], ""), Message(User, s.request, [], "")]
                             + Visible(t.blocks[..i], w.builder.maxToolResultTurns)
    && t.sent[i].forced == if |s.selected| == 1 && (forall k :: 0 <= k < i ==> t.blocks[k].Note?) then Some(s.selected[0]) else None
  }

  lemma {:induction false} NoTurns(blocks: seq<Block>)
    ensures Turns(blocks) == 0 <==> forall k :: 0 <= k < |blocks| ==> blocks[k].Note?
  {
    if blocks != [] {
      NoTurns(blocks[1..]);
      assert forall k :: 1 <= k < |blocks| ==> blocks[k] == blocks[1..][k - 1];
    }
  }

  lemma ExecutedPrefix(w: Worker, t: Trace, s: Setup, i: nat)
    requires i <= |t.blocks| && w.ToolsRan(t, s)
    ensures |CallsOf(t.blocks[..i])| <= |t.executed|
    ensures t.executed[..|CallsOf(t.blocks[..i])|] == w.Executions(CallsOf(t.blocks[..i]), s, 0)
  {
    hide Reaching, Used, CallsOf, BlockReason;
    CallsGrow(t.blocks, i);
    var front, all := CallsOf(t.blocks[..i]), CallsOf(t.blocks);
    forall k | 0 <= k < |front| ensures t.executed[k] == w.Executions(front, s, 0)[k] {
      assert front[..k] == all[..k];
    }
  }

  lemma {:induction false} CallsGrow(blocks: seq<Block>, i: nat)
    requires i <= |blocks|
    ensures CallsOf(blocks[..i]) <= CallsOf(blocks)
    decreases |blocks| - i
  {
    if i < |blocks| {
      CallsGrow(blocks, i + 1);
      assert blocks[..i + 1][..i] == blocks[..i];
    } else {
      assert blocks[..i] == blocks;
    }
  }

  lemma AnswersShow(w: Worker, s: Setup, before: seq<Call>, calls: seq<Call>)
    ensures var texts := w.builder.ClipAll(w.Answers(calls, s, |Reaching(before, s)|));
            |texts| == |calls| && forall j :: 0 <= j < |calls| ==>
              Shows(w, s, calls[j], CountPermitted(before, s) + CountPermitted(calls[..j], s), texts[j])
  {
    hide *;
    ReachingCount(before, s);
    forall j | 0 <= j < |calls|
      ensures Shows(w, s, calls[j], CountPermitted(before, s) + CountPermitted(calls[..j], s),
                    w.builder.ClipAll(w.Answers(calls, s, |Reaching(before, s)|))[j])
    {
      ReachingCount(calls[..j], s);
      ClippedShows(w, s, calls[j], |Reaching(before, s)| + |Reaching(calls[..j], s)|);
    }
  }

  lemma MoveSays(w: Worker, s: Setup, blocks: seq<Block>, executed: seq<Executed>, reply: Reply, b: Block)
    requires w.MoveOn(reply, blocks, executed, s) == Say(b)
    ensures reply.Reply?
    ensures reply.calls != [] ==> s.selected != [] && Turns(blocks) < Limit(s)
                                  && b == Turn(reply.calls, w.builder.ClipAll(w.Answers(reply.calls, s, |Reaching(CallsOf(blocks), s)|)))
    ensures reply.calls == [] ==> b.Note? && Notes(blocks) < s.maxRetries
                                  && exists reason :: w.world.judge(|blocks|, reply.content, executed) == Revise(b.text, reason)
  {
  }

  lemma RoundFrom(w: Worker, t: Trace, s: Setup, i: nat)
    requires i < |t.blocks| && i < |t.sent| && w.world.provider(i, t.sent[i].messages, t.sent[i].forced).Reply?
    requires var reply := w.world.provider(i, t.sent[i].messages, t.sent[i].forced);
             reply.calls != [] ==>
               && t.blocks[i].Turn? && t.blocks[i].calls == reply.calls && |t.blocks[i].texts| == |reply.calls|
               && s.selected != [] && Turns(t.blocks[..i]) < Limit(s)
               && forall j :: 0 <= j < |reply.calls| ==>
                    Shows(w, s, reply.calls[j], CountPermitted(CallsOf(t.blocks[..i]), s) + CountPermitted(reply.calls[..j], s), t.blocks[i].texts[j])
    requires var reply, calls := w.world.provider(i, t.sent[i].messages, t.sent[i].forced), CallsOf(t.blocks[..i]);
             reply.calls == [] ==>
               && t.blocks[i].Note? && Notes(t.blocks[..i]) < s.maxRetries && |calls| <= |t.executed|
               && exists reason :: w.world.judge(i, reply.content, t.executed[..|calls|]) == Revise(t.blocks[i].text, reason)
    ensures RoundReads(w, t, s, i)
  {
    hide Shows, CountPermitted, CallsOf, Turns, Notes, Limit;
  }

  lemma RoundIsRead(w: Worker, t: Trace, outcome: Outcome, s: Setup, i: nat)
    requires w.Finished(t, outcome, s) && i < |t.blocks|
    ensures i < |t.sent| && RoundReads(w, t, s, i)
  {
    hide *;
    var front := t.blocks[..i];
    AtRound(w, t, outcome, s, i);
    ExecutedPrefix(w, t, s, i);
    var reply := w.world.provider(i, t.sent[i].messages, t.sent[i].forced);
    MoveSays(w, s, front, w.Executions(CallsOf(front), s, 0), reply, t.blocks[i]);
    if reply.calls != [] {
      AnswersShow(w, s, CallsOf(front), reply.calls);
    }
    RoundFrom(w, t, s, i);
  }

  lemma AtRound(w: Worker, t: Trace, outcome: Outcome, s: Setup, i: nat)
    requires w.Finished(t, outcome, s) && i <= |t.blocks|
    ensures i < |t.sent| && AllCoherent(t.blocks[..i]) && t.sent[i] == w.Request(t.blocks[..i], s) && w.ToolsRan(t, s)
    ensures var reply := w.world.provider(i, t.sent[i].messages, t.sent[i].forced);
            var executed := w.Executions(CallsOf(t.blocks[..i]), s, 0);
            w.MoveOn(reply, t.blocks[..i], executed, s) == if i < |t.blocks| then Say(t.blocks[i]) else Stop(outcome)
  {
    if i == |t.blocks| { assert t.blocks[..i] == t.blocks; }
  }

  lemma MoveStops(w: Worker, t: Trace, s: Setup, reply: Reply, outcome: Outcome)
    requires |t.sent| == |t.blocks| + 1
    requires reply == w.world.provider(|t.blocks|, t.sent[|t.blocks|].messages, t.sent[|t.blocks|].forced)
    requires w.MoveOn(reply, t.blocks, t.executed, s) == Stop(outcome)
    ensures EndReads(w, t, outcome, s)
  {
  }

  lemma EndIsRead(w: Worker, t: Trace, outcome: Outcome, s: Setup)
    requires w.Finished(t, outcome, s)
    ensures |t.sent| == |t.blocks| + 1 && EndReads(w, t, outcome, s)
  {
    var n := |t.blocks|;
    AtRound(w, t, outcome, s, n);
    assert t.blocks[..n] == t.blocks;
    MoveStops(w, t, s, w.world.provider(n, t.sent[n].messages, t.sent[n].forced), outcome);
  }

  lemma RequestIsRead(w: Worker, t: Trace, outcome: Outcome, s: Setup, i: nat)
    requires w.Finished(t, outcome, s) && i <= |t.blocks|
    ensures i < |t.sent| && AllCoherent(t.blocks[..i]) && RequestReads(w, t, s, i)
  {
    hide *;
    AtRound(w, t, outcome, s, i);
    RequestFrom(w, t, s, i);
  }

  lemma RequestFrom(w: Worker, t: Trace, s: Setup, i: nat)
    requires i < |t.sent| && i <= |t.blocks| && AllCoherent(t.blocks[..i]) && t.sent[i] == w.Request(t.blocks[..i], s)
    ensures RequestReads(w, t, s, i)
  {
    HistoryIsVisible(w.builder.systemInstruction, s.request, t.blocks[..i], w.builder.maxToolResultTurns);
    NoTurns(t.blocks[..i]);
    hide History, Window, Visible, Turns;
    assert forall k :: 0 <= k < i ==> t.blocks[..i][k] == t.blocks[k];
  }

  /** All calls of the conversation, in order, were dealt with: a permitted one was run and recorded
      with the tool's answer, any other is recorded as not run. */
  lemma ExecutionsAreRead(w: Worker, t: Trace, outcome: Outcome, s: Setup, k: nat)
    requires w.Finished(t, outcome, s) && k < |CallsOf(t.blocks)|
    ensures |t.executed| == |CallsOf(t.blocks)|
    ensures var call := CallsOf(t.blocks)[k];
            t.executed[k] == if !Permitted(call.name, s) then Executed(call.name, false, "")
                             else
                               match w.world.tool(CountPermitted(CallsOf(t.blocks)[..k], s), call)
                               case ToolText(text) => Executed(call.name, true, text)
                               case ToolFailed(_) => Executed(call.name, false, "")
  {
    var calls := CallsOf(t.blocks);
    assert w.ToolsRan(t, s);
    ReachingCount(calls[..k], s);
    BlockReasonMeans(calls[k].name, s);
    hide CallsOf, Reaching, BlockReason, Permitted, Used;
    assert t.executed[k] == w.ExecutionOf(calls[k], s, 0 + |Reaching(calls[..k], s)|);
  }

  /** A tool is reported as used exactly when a call of it succeeded, once each. */
  lemma {:induction false} UsedExactly(executed: seq<Executed>)
    ensures forall name :: name in Used(executed) <==> exists k :: 0 <= k < |executed| && executed[k].ok && executed[k].name == name
    ensures forall i, j :: 0 <= i < j < |Used(executed)| ==> Used(executed)[i] != Used(executed)[j]
  {
    if executed != [] {
      var front := executed[..|executed| - 1];
      UsedExactly(front);
      assert forall k :: 0 <= k < |front| ==> front[k] == executed[k];
    }
  }

  lemma {:induction false} PrefixCounts(blocks: seq<Block>)
    requires blocks != []
    ensures var front, last := blocks[..|blocks| - 1], blocks[|blocks| - 1];
            && Turns(blocks) == Turns(front) + (if last.Turn? then 1 else 0)
            && Notes(blocks) == Notes(front) + (if last.Note? then 1 else 0)
  {
    var front, last := blocks[..|blocks| - 1], blocks[|blocks| - 1];
    if front != [] {
      PrefixCounts(blocks[1..]);
      assert blocks[1..][..|blocks| - 2] == front[1..];
    }
  }

  /** Every round is a tool turn within the limit or a retry within the allowance. */
  lemma {:induction false} RoundsCounted(w: Worker, t: Trace, s: Setup, i: nat)
    requires i <= |t.blocks| <= |t.sent| && forall k :: 0 <= k < i ==> RoundReads(w, t, s, k)
    ensures Turns(t.blocks[..i]) <= (if Limit(s) < 0 then 0 else Limit(s)) && Notes(t.blocks[..i]) <= (if s.maxRetries < 0 then 0 else s.maxRetries)
    ensures Turns(t.blocks[..i]) + Notes(t.blocks[..i]) == i
  {
    if i > 0 {
      RoundsCounted(w, t, s, i - 1);
      PrefixCounts(t.blocks[..i]);
      assert t.blocks[..i][..i - 1] == t.blocks[..i - 1];
      assert RoundReads(w, t, s, i - 1);
    }
  }

  /** A turn makes at most one request per tool round, one per retry, and a last one. */
  lemma RequestsBounded(w: Worker, t: Trace, outcome: Outcome, s: Setup)
    requires w.Finished(t, outcome, s)
    ensures |t.sent| <= (if Limit(s) < 0 then 0 else Limit(s)) + (if s.maxRetries < 0 then 0 else s.maxRetries) + 1
  {
    hide *;
    TurnReads(w, t, outcome, s);
    RoundsCounted(w, t, s, |t.blocks|);
    assert t.blocks[..|t.blocks|] == t.blocks;
  }

  /** A finished turn, read from outside: every request, every round and the end. */
  lemma TurnReads(w: Worker, t: Trace, outcome: Outcome, s: Setup)
    requires w.Finished(t, outcome, s)
    ensures |t.sent| == |t.blocks| + 1 && AllCoherent(t.blocks)
    ensures forall i :: 0 <= i <= |t.blocks| ==> AllCoherent(t.blocks[..i]) && RequestReads(w, t, s, i)
    ensures forall i :: 0 <= i < |t.blocks| ==> RoundReads(w, t, s, i)
    ensures EndReads(w, t, outcome, s)
  {
    EndIsRead(w, t, outcome, s);
    forall i | 0 <= i <= |t.blocks| ensures i < |t.sent| && AllCoherent(t.blocks[..i]) && RequestReads(w, t, s, i) {
      RequestIsRead(w, t, outcome, s, i);
    }
    forall i | 0 <= i < |t.blocks| ensures i < |t.sent| && RoundReads(w, t, s, i) { RoundIsRead(w, t, outcome, s, i); }
  }
}
