/** The provider message list and its bounded tool history
    (MEIZEX_ROUTER_WORKER/src/meizex_mrw/context_builder.py). */
module ToolHistory {
  import opened Common
  import Ordering

  datatype Role = System | User | Assistant | Tool

  datatype Call = Call(id: string, name: string, arguments: string)

  datatype Message = Message(role: Role, content: string, calls: seq<Call>, callId: string)

  function SystemMessage(text: string): Message { Message(System, text, [], "") }

  function UserMessage(text: string): Message { Message(User, text, [], "") }

  function CallMessage(calls: seq<Call>): Message { Message(Assistant, "", calls, "") }

  function ToolMessage(call: Call, text: string): Message { Message(Tool, text, [], call.id) }

  predicate OpensTurn(m: Message) { m.role.Assistant? && m.calls != [] }

  // ---------------------------------------------------------------- what a history means

  /** The units of a worker conversation after its two opening messages. */
  datatype Block = Note(text: string) | Turn(calls: seq<Call>, texts: seq<string>)

  predicate Coherent(b: Block) { b.Turn? ==> b.calls != [] && |b.texts| == |b.calls| }

  predicate AllCoherent(blocks: seq<Block>) { forall i :: 0 <= i < |blocks| ==> Coherent(blocks[i]) }

  function ToolMessages(calls: seq<Call>, texts: seq<string>): (r: seq<Message>)
    requires |texts| == |calls|
    ensures |r| == |calls| && forall i :: 0 <= i < |r| ==> r[i] == ToolMessage(calls[i], texts[i])
  {
    seq(|calls|, i requires 0 <= i < |calls| => ToolMessage(calls[i], texts[i]))
  }

  /** A note is one user message; a turn is the assistant's calls and exactly their results. */
  function BlockMessages(b: Block): (r: seq<Message>)
    requires Coherent(b)
    ensures r != [] && !r[0].role.Tool?
  {
    match b
    case Note(text) => [UserMessage(text)]
    case Turn(calls, texts) => [CallMessage(calls)] + ToolMessages(calls, texts)
  }

  function Flatten(blocks: seq<Block>): seq<Message>
    requires AllCoherent(blocks)
  {
    if blocks == [] then [] else BlockMessages(blocks[0]) + Flatten(blocks[1..])
  }

  function History(system: string, user: string, blocks: seq<Block>): seq<Message>
    requires AllCoherent(blocks)
  {
    [SystemMessage(system), UserMessage(user)] + Flatten(blocks)
  }

  function Turns(blocks: seq<Block>): nat {
    if blocks == [] then 0 else (if blocks[0].Turn? then 1 else 0) + Turns(blocks[1..])
  }

  /** All blocks but the oldest `k` turns; notes always stay. */
  function DropTurns(blocks: seq<Block>, k: nat): (r: seq<Block>)
    ensures AllCoherent(blocks) ==> AllCoherent(r)
  {
    if blocks == [] || k == 0 then blocks
    else if blocks[0].Turn? then DropTurns(blocks[1..], k - 1)
    else [blocks[0]] + DropTurns(blocks[1..], k)
  }

  function Excess(turns: nat, max: nat): nat { if turns > max then turns - max else 0 }

  /** The window of the conversation that is sent: at most `max` turns, the latest ones. */
  function Window(blocks: seq<Block>, max: nat): (r: seq<Block>)
    ensures AllCoherent(blocks) ==> AllCoherent(r)
  {
    DropTurns(blocks, Excess(Turns(blocks), max))
  }

  lemma {:induction false} DropTurnsCount(blocks: seq<Block>, k: nat)
    requires k <= Turns(blocks)
    ensures Turns(DropTurns(blocks, k)) == Turns(blocks) - k
  {
    if blocks != [] && k > 0 {
      if blocks[0].Turn? {
        DropTurnsCount(blocks[1..], k - 1);
      } else {
        DropTurnsCount(blocks[1..], k);
      }
    }
  }

  lemma {:induction false} TurnsAppend(blocks: seq<Block>, b: Block)
    ensures Turns(blocks + [b]) == Turns(blocks) + (if b.Turn? then 1 else 0)
  {
    if blocks == [] {
      assert blocks + [b] == [b];
    } else {
      assert (blocks + [b])[1..] == blocks[1..] + [b];
      TurnsAppend(blocks[1..], b);
    }
  }

  lemma {:induction false} DropTurnsAppend(blocks: seq<Block>, k: nat, b: Block)
    requires k <= Turns(blocks)
    ensures DropTurns(blocks + [b], k) == DropTurns(blocks, k) + [b]
  {
    if blocks != [] && k > 0 {
      assert (blocks + [b])[1..] == blocks[1..] + [b];
      if blocks[0].Turn? {
        DropTurnsAppend(blocks[1..], k - 1, b);
      } else {
        DropTurnsAppend(blocks[1..], k, b);
      }
    }
  }

  lemma {:induction false} DropTurnsTwice(blocks: seq<Block>, j: nat, k: nat)
    ensures DropTurns(DropTurns(blocks, j), k) == DropTurns(blocks, j + k)
  {
    if blocks != [] && j > 0 {
      if blocks[0].Turn? {
        DropTurnsTwice(blocks[1..], j - 1, k);
      } else {
        DropTurnsTwice(blocks[1..], j, k);
        var rest := DropTurns(blocks[1..], j);
        assert ([blocks[0]] + rest)[1..] == rest;
      }
    }
  }

  /** Adding a block to the window and trimming again gives the window of the longer conversation:
      trimming as one goes loses nothing that trimming once at the end would keep. */
  lemma WindowAppend(blocks: seq<Block>, b: Block, max: nat)
    ensures Window(Window(blocks, max) + [b], max) == Window(blocks + [b], max)
    ensures Turns(Window(blocks, max)) <= max
  {
    hide Turns, DropTurns;
    var k := Excess(Turns(blocks), max);
    DropTurnsCount(blocks, k);
    DropTurnsAppend(blocks, k, b);
    TurnsAppend(blocks, b);
    TurnsAppend(DropTurns(blocks, k), b);
    DropTurnsTwice(blocks + [b], k, Excess(Turns(Window(blocks, max) + [b]), max));
  }

  lemma WindowAppendNote(blocks: seq<Block>, text: string, max: nat)
    ensures Window(blocks + [Note(text)], max) == Window(blocks, max) + [Note(text)]
  {
    TurnsAppend(blocks, Note(text));
    DropTurnsAppend(blocks, Excess(Turns(blocks), max), Note(text));
  }

  lemma {:induction false} FlattenAppend(blocks: seq<Block>, b: Block)
    requires AllCoherent(blocks) && Coherent(b)
    ensures Flatten(blocks + [b]) == Flatten(blocks) + BlockMessages(b)
  {
    if blocks == [] {
      assert blocks + [b] == [b] && [b][1..] == [];
    } else {
      assert (blocks + [b])[1..] == blocks[1..] + [b];
      FlattenAppend(blocks[1..], b);
    }
  }

  // ---------------------------------------------------------------- the builder

  /** How many tool messages follow directly. */
  function LeadingTools(rest: seq<Message>): (n: nat)
    ensures n <= |rest| && (forall i :: 0 <= i < n ==> rest[i].role.Tool?) && (n < |rest| ==> !rest[n].role.Tool?)
  {
    if rest == [] || !rest[0].role.Tool? then 0 else 1 + LeadingTools(rest[1..])
  }

  /** The length of the group at the head: a call message with its results, or one message. */
  function GroupLength(rest: seq<Message>): (n: nat)
    requires rest != []
    ensures 1 <= n <= |rest|
  {
    if OpensTurn(rest[0]) then 1 + LeadingTools(rest[1..]) else 1
  }

  /** The grouping `_trim_tool_history` makes of any message list. */
  function Groups(rest: seq<Message>): (groups: seq<seq<Message>>)
    ensures forall g :: g in groups ==> g != []
    decreases |rest|
  {
    if rest == [] then [] else [rest[..GroupLength(rest)]] + Groups(rest[GroupLength(rest)..])
  }

  /** A group of any message list is an assistant message with calls and the tool messages after it,
      or one other message. */
  ghost predicate GroupReads(g: seq<Message>) {
    if g != [] && g[0].role == Assistant && g[0].calls != [] then forall i :: 1 <= i < |g| ==> g[i].role == Tool
    else |g| == 1
  }

  function Joined(groups: seq<seq<Message>>): seq<Message> { if groups == [] then [] else groups[0] + Joined(groups[1..]) }

  /** Groups of that form, those that trimming counts as turns being the ones with calls, and none of
      them parted from a tool message that follows it. */
  ghost predicate WellGrouped(groups: seq<seq<Message>>) {
    && (forall i :: 0 <= i < |groups| ==> groups[i] != [] && GroupReads(groups[i]))
    && (forall i :: 0 <= i < |groups| ==> (IsTurnGroup(groups[i]) <==> groups[i][0].role == Assistant && groups[i][0].calls != []))
    && (forall i :: 0 < i < |groups| && IsTurnGroup(groups[i - 1]) ==> groups[i][0].role != Tool)
  }

  lemma HeadGroup(rest: seq<Message>)
    requires rest != []
    ensures var n := GroupLength(rest);
            && rest[..n] != [] && GroupReads(rest[..n])
            && (IsTurnGroup(rest[..n]) <==> rest[0].role == Assistant && rest[0].calls != [])
            && (IsTurnGroup(rest[..n]) && n < |rest| ==> rest[n].role != Tool)
  {
    assert forall i :: 1 <= i < |rest| ==> rest[i] == rest[1..][i - 1];
  }

  lemma WellGroupedNext(g: seq<Message>, others: seq<seq<Message>>)
    requires WellGrouped(others) && g != [] && GroupReads(g)
    requires IsTurnGroup(g) <==> g[0].role == Assistant && g[0].calls != []
    requires others != [] && IsTurnGroup(g) ==> others[0] != [] && others[0][0].role != Tool
    ensures WellGrouped([g] + others)
  {
    hide GroupReads, IsTurnGroup;
    var all := [g] + others;
    assert forall i :: 0 < i < |all| ==> all[i] == others[i - 1];
  }

  /** What trimming makes of any message list: groups that are the list, in that form. */
  lemma {:induction false} GroupsRead(rest: seq<Message>)
    ensures Joined(Groups(rest)) == rest && WellGrouped(Groups(rest))
    decreases |rest|
  {
    hide GroupReads, IsTurnGroup, GroupLength, WellGrouped;
    if rest == [] {
      assert WellGrouped([]) by { NoGroups(); }
    } else {
      var n := GroupLength(rest);
      HeadGroup(rest);
      GroupsRead(rest[n..]);
      assert rest == rest[..n] + rest[n..];
      FirstOfJoined(Groups(rest[n..]), rest[n..]);
      WellGroupedNext(rest[..n], Groups(rest[n..]));
    }
  }

  lemma NoGroups()
    ensures WellGrouped([])
  {
  }

  lemma FirstOfJoined(groups: seq<seq<Message>>, rest: seq<Message>)
    requires Joined(groups) == rest && WellGrouped(groups)
    ensures groups != [] ==> groups[0] != [] && rest != [] && groups[0][0] == rest[0]
  {
    hide GroupReads, IsTurnGroup;
  }

  lemma GroupsStep(rest: seq<Message>, start: nat, end: nat)
    requires start < |rest| && end == start + GroupLength(rest[start..])
    ensures end <= |rest| && Groups(rest[start..]) == [rest[start..end]] + Groups(rest[end..])
  {
    var tail := rest[start..];
    assert tail[..end - start] == rest[start..end] && tail[end - start..] == rest[end..];
  }

  predicate IsTurnGroup(g: seq<Message>) { g != [] && OpensTurn(g[0]) }

  function CountTurnGroups(groups: seq<seq<Message>>): nat {
    if groups == [] then 0 else CountTurnGroups(groups[..|groups| - 1]) + (if IsTurnGroup(groups[|groups| - 1]) then 1 else 0)
  }

  /** Everything except the first `k` turn groups. */
  function Keep(groups: seq<seq<Message>>, k: nat): seq<Message> {
    if groups == [] then []
    else
      var front, last := groups[..|groups| - 1], groups[|groups| - 1];
      Keep(front, k) + (if IsTurnGroup(last) && CountTurnGroups(front) < k then [] else last)
  }

  class ContextBuilder {
    const systemInstruction: string
    const toolResultMaxChars: nat
    const maxToolResultTurns: nat

    constructor (systemInstruction: string, toolResultMaxChars: int, maxToolResultTurns: int)
      ensures this.systemInstruction == systemInstruction
      ensures this.toolResultMaxChars >= 100 && this.maxToolResultTurns >= 1
      ensures toolResultMaxChars >= 100 ==> this.toolResultMaxChars == toolResultMaxChars
      ensures maxToolResultTurns >= 1 ==> this.maxToolResultTurns == maxToolResultTurns
    {
      this.systemInstruction := systemInstruction;
      this.toolResultMaxChars := if toolResultMaxChars < 100 then 100 else toolResultMaxChars;
      this.maxToolResultTurns := if maxToolResultTurns < 1 then 1 else maxToolResultTurns;
    }

    method Build(request: string) returns (messages: seq<Message>)
      ensures messages == History(systemInstruction, request, [])
    {
      messages := [SystemMessage(systemInstruction), UserMessage(request)];
    }

    function Clip(text: string): string {
      if |text| > toolResultMaxChars then text[..toolResultMaxChars] + "\n...[truncated]" else text
    }

    function ClipAll(texts: seq<string>): (r: seq<string>)
      ensures |r| == |texts| && forall i :: 0 <= i < |r| ==> r[i] == Clip(texts[i])
    {
      seq(|texts|, i requires 0 <= i < |texts| => Clip(texts[i]))
    }

    /** A result that fits is sent as it is, a longer one as its beginning and a marker. */
    lemma ToolMessagesRead(calls: seq<Call>, texts: seq<string>)
      requires |texts| == |calls|
      ensures forall i :: 0 <= i < |calls| ==>
                ToolMessages(calls, ClipAll(texts))[i]
                == Message(Tool, if |texts[i]| <= toolResultMaxChars then texts[i] else texts[i][..toolResultMaxChars] + "\n...[truncated]",
                           [], calls[i].id)
    {
    }

    method AppendUserNote(messages: seq<Message>, note: string) returns (r: seq<Message>)
      ensures r == messages + [UserMessage(note)]
    {
      r := messages + [UserMessage(note)];
    }

    /** The tool messages of one turn, and how many texts were cut. */
    method ToolResults(calls: seq<Call>, texts: seq<string>) returns (r: seq<Message>, truncated: nat)
      requires |texts| == |calls|
      ensures r == ToolMessages(calls, ClipAll(texts))
      ensures |r| == |calls| && forall i :: 0 <= i < |r| ==>
                r[i] == Message(Tool, if |texts[i]| <= toolResultMaxChars then texts[i] else texts[i][..toolResultMaxChars] + "\n...[truncated]",
                                [], calls[i].id)
      ensures truncated == CountLong(texts, toolResultMaxChars)
    {
      ToolMessagesRead(calls, texts);
      r, truncated := [], 0;
      var i := 0;
      hide *;
      CountLongNone(toolResultMaxChars);
      assert texts[..0] == [];
      ghost var whole := ToolMessages(calls, ClipAll(texts));
      while i < |calls|
        invariant 0 <= i <= |calls| && r == whole[..i]
        invariant truncated == CountLong(texts[..i], toolResultMaxChars)
      {
        CountLongStep(texts, i, toolResultMaxChars);
        if |texts[i]| > toolResultMaxChars {
          truncated := truncated + 1;
        }
        r := r + [ToolMessage(calls[i], Clip(texts[i]))];
        Ordering.TakeOneMore(whole, i);
        i := i + 1;
      }
      assert texts[..i] == texts && whole[..i] == whole;
    }

    /** `append_tool_turn`, for any message list. */
    method AppendToolTurn(messages: seq<Message>, calls: seq<Call>, texts: seq<string>) returns (r: seq<Message>, truncated: nat, dropped: nat)
      requires |texts| == |calls|
      ensures (r, dropped) == Trimmed(messages + ([CallMessage(calls)] + ToolMessages(calls, ClipAll(texts))), maxToolResultTurns)
      ensures truncated == CountLong(texts, toolResultMaxChars)
    {
      var results;
      results, truncated := ToolResults(calls, texts);
      r, dropped := TrimToolHistory(messages + ([CallMessage(calls)] + results), maxToolResultTurns);
    }

    static method TrimToolHistory(messages: seq<Message>, maxTurns: nat) returns (r: seq<Message>, dropped: nat)
      ensures (r, dropped) == Trimmed(messages, maxTurns)
    {
      if |messages| <= 2 {
        return messages, 0;
      }
      var groups := GroupMessages(messages[2..]);
      dropped := Excess(CountTurnGroups(groups), maxTurns);
      var kept := KeepGroups(groups, dropped);
      r := messages[..2] + kept;
    }

    static method GroupMessages(rest: seq<Message>) returns (groups: seq<seq<Message>>)
      ensures groups == Groups(rest)
    {
      groups := [];
      var index := 0;
      assert rest[0..] == rest;
      while index < |rest|
        invariant 0 <= index <= |rest|
        invariant Groups(rest) == groups + Groups(rest[index..])
      {
        var start := index;
        index := EndOfGroup(rest, start);
        GroupsStep(rest, start, index);
        hide Groups, GroupLength;
        groups := groups + [rest[start..index]];
      }
    }

    static method EndOfGroup(rest: seq<Message>, start: nat) returns (index: nat)
      requires start < |rest|
      ensures index == start + GroupLength(rest[start..])
    {
      index := start + 1;
      assert rest[start..][1..] == rest[start + 1..];
      if OpensTurn(rest[start]) {
        while index < |rest| && rest[index].role.Tool?
          invariant start + 1 <= index <= |rest|
          invariant LeadingTools(rest[start + 1..]) == index - start - 1 + LeadingTools(rest[index..])
        {
          assert rest[index..][1..] == rest[index + 1..];
          index := index + 1;
        }
        assert LeadingTools(rest[index..]) == 0;
      }
    }

    static method KeepGroups(groups: seq<seq<Message>>, drop: nat) returns (r: seq<Message>)
      ensures r == Keep(groups, drop)
    {
      r := [];
      var i, seen := 0, 0;
      while i < |groups|
        invariant 0 <= i <= |groups|
        invariant seen == CountTurnGroups(groups[..i])
        invariant r == Keep(groups[..i], drop)
      {
        assert groups[..i + 1][..i] == groups[..i];
        if !(IsTurnGroup(groups[i]) && seen < drop) {
          r := r + groups[i];
        } else {
          assert r + [] == r;
        }
        if IsTurnGroup(groups[i]) {
          seen := seen + 1;
        }
        i := i + 1;
      }
      assert groups[..i] == groups;
    }
  }

  function CountLong(texts: seq<string>, max: nat): nat {
    if texts == [] then 0
    else CountLong(texts[..|texts| - 1], max) + (if |texts[|texts| - 1]| > max then 1 else 0)
  }

  lemma CountLongNone(max: nat)
    ensures CountLong([], max) == 0
  {
  }

  lemma CountLongStep(texts: seq<string>, i: nat, max: nat)
    requires i < |texts|
    ensures CountLong(texts[..i + 1], max) == CountLong(texts[..i], max) + (if |texts[i]| > max then 1 else 0)
  {
    assert texts[..i + 1][..i] == texts[..i];
  }

  /** `_trim_tool_history` as a function. */
  function Trimmed(messages: seq<Message>, maxTurns: nat): (seq<Message>, nat) {
    if |messages| <= 2 then (messages, 0)
    else
      var groups := Groups(messages[2..]);
      var k := Excess(CountTurnGroups(groups), maxTurns);
      (messages[..2] + Keep(groups, k), k)
  }

  // ---------------------------------------------------------------- trimming keeps whole turns

  function BlockGroups(blocks: seq<Block>): (r: seq<seq<Message>>)
    requires AllCoherent(blocks)
    ensures |r| == |blocks| && forall i :: 0 <= i < |r| ==> r[i] == BlockMessages(blocks[i])
  {
    seq(|blocks|, i requires 0 <= i < |blocks| => BlockMessages(blocks[i]))
  }

  lemma {:induction false} LeadingToolsOfTurn(calls: seq<Call>, texts: seq<string>, more: seq<Message>)
    requires |texts| == |calls| && (more == [] || !more[0].role.Tool?)
    ensures LeadingTools(ToolMessages(calls, texts) + more) == |calls|
  {
    var all := ToolMessages(calls, texts) + more;
    if calls == [] {
      assert all == more;
    } else {
      LeadingToolsOfTurn(calls[1..], texts[1..], more);
      assert all[1..] == ToolMessages(calls[1..], texts[1..]) + more;
    }
  }

  lemma FlattenStart(blocks: seq<Block>)
    requires AllCoherent(blocks)
    ensures Flatten(blocks) == [] || !Flatten(blocks)[0].role.Tool?
  {
  }

  lemma SplitAt(a: seq<Message>, b: seq<Message>)
    ensures (a + b)[..|a|] == a && (a + b)[|a|..] == b
  {
  }

  lemma GroupAtHead(b: Block, more: seq<Message>)
    requires Coherent(b) && (more == [] || !more[0].role.Tool?)
    ensures var all := BlockMessages(b) + more;
            GroupLength(all) == |BlockMessages(b)| && all[..GroupLength(all)] == BlockMessages(b) && all[GroupLength(all)..] == more
  {
    SplitAt(BlockMessages(b), more);
    if b.Turn? {
      var tools := ToolMessages(b.calls, b.texts);
      LeadingToolsOfTurn(b.calls, b.texts, more);
      SplitAt([CallMessage(b.calls)], tools + more);
      assert BlockMessages(b) + more == [CallMessage(b.calls)] + (tools + more);
      hide LeadingTools, ToolMessages;
    }
  }

  /** A coherent history is grouped exactly into its blocks. */
  lemma {:induction false} GroupsOfBlocks(blocks: seq<Block>)
    requires AllCoherent(blocks)
    ensures Groups(Flatten(blocks)) == BlockGroups(blocks)
  {
    if blocks != [] {
      GroupsOfBlocks(blocks[1..]);
      FlattenStart(blocks[1..]);
      GroupAtHead(blocks[0], Flatten(blocks[1..]));
      hide GroupLength;
      assert BlockGroups(blocks) == [BlockMessages(blocks[0])] + BlockGroups(blocks[1..]);
    }
  }

  lemma BlockGroupsSnoc(front: seq<Block>, last: Block)
    requires AllCoherent(front) && Coherent(last)
    ensures AllCoherent(front + [last])
    ensures BlockGroups(front + [last]) == BlockGroups(front) + [BlockMessages(last)]
    ensures IsTurnGroup(BlockMessages(last)) == last.Turn?
  {
  }

  lemma CountSnoc(groups: seq<seq<Message>>, g: seq<Message>)
    ensures CountTurnGroups(groups + [g]) == CountTurnGroups(groups) + (if IsTurnGroup(g) then 1 else 0)
  {
    assert (groups + [g])[..|groups|] == groups;
  }

  lemma {:induction false} CountOfBlocks(blocks: seq<Block>)
    requires AllCoherent(blocks)
    ensures CountTurnGroups(BlockGroups(blocks)) == Turns(blocks)
  {
    if blocks == [] {
    } else {
      var front, last := blocks[..|blocks| - 1], blocks[|blocks| - 1];
      assert AllCoherent(front) && Coherent(last) && blocks == front + [last];
      hide *;
      CountOfBlocks(front);
      BlockGroupsSnoc(front, last);
      CountSnoc(BlockGroups(front), BlockMessages(last));
      TurnsAppend(front, last);
    }
  }

  lemma DropTurnsSnoc(front: seq<Block>, last: Block, k: nat)
    ensures DropTurns(front + [last], k) == DropTurns(front, k) + (if last.Turn? && Turns(front) < k then [] else [last])
  {
    if k <= Turns(front) {
      DropTurnsAppend(front, k, last);
    } else {
      // All turns of the front go; the last block faces the remaining allowance.
      DropPast(front, last, k);
    }
  }

  lemma {:induction false} DropPast(front: seq<Block>, last: Block, k: nat)
    requires k > Turns(front)
    ensures DropTurns(front + [last], k) == DropTurns(front, k) + (if last.Turn? then [] else [last])
    decreases |front|
  {
    if front == [] {
      assert front + [last] == [last] && [last][1..] == [];
    } else {
      assert (front + [last])[1..] == front[1..] + [last];
      if front[0].Turn? {
        DropPast(front[1..], last, k - 1);
        assert DropTurns(front + [last], k) == DropTurns(front[1..] + [last], k - 1);
      } else {
        DropPast(front[1..], last, k);
        assert DropTurns(front + [last], k) == [front[0]] + DropTurns(front[1..] + [last], k);
      }
    }
  }

  lemma KeepSnoc(groups: seq<seq<Message>>, g: seq<Message>, k: nat)
    ensures Keep(groups + [g], k) == if IsTurnGroup(g) && CountTurnGroups(groups) < k then Keep(groups, k) else Keep(groups, k) + g
  {
    assert (groups + [g])[..|groups|] == groups;
    assert Keep(groups, k) + [] == Keep(groups, k);
  }

  lemma KeepStep(front: seq<Block>, last: Block, k: nat)
    requires AllCoherent(front) && Coherent(last)
    requires Keep(BlockGroups(front), k) == Flatten(DropTurns(front, k))
    ensures AllCoherent(front + [last])
    ensures Keep(BlockGroups(front + [last]), k) == Flatten(DropTurns(front + [last], k))
  {
    hide *;
    BlockGroupsSnoc(front, last);
    CountOfBlocks(front);
    KeepSnoc(BlockGroups(front), BlockMessages(last), k);
    DropTurnsSnoc(front, last, k);
    if last.Turn? && Turns(front) < k {
      assert DropTurns(front, k) + [] == DropTurns(front, k);
    } else {
      FlattenAppend(DropTurns(front, k), last);
    }
  }

  lemma {:induction false} KeepOfBlocks(blocks: seq<Block>, k: nat)
    requires AllCoherent(blocks)
    ensures Keep(BlockGroups(blocks), k) == Flatten(DropTurns(blocks, k))
  {
    if blocks == [] {
    } else {
      var front, last := blocks[..|blocks| - 1], blocks[|blocks| - 1];
      assert AllCoherent(front) && Coherent(last) && blocks == front + [last];
      hide *;
      KeepOfBlocks(front, k);
      KeepStep(front, last, k);
    }
  }

  /** Trimming a coherent history drops exactly its oldest whole turns and keeps every note. */
  lemma TrimmedHistory(system: string, user: string, blocks: seq<Block>, max: nat)
    requires AllCoherent(blocks)
    ensures Trimmed(History(system, user, blocks), max).0 == History(system, user, Window(blocks, max))
    ensures Trimmed(History(system, user, blocks), max).1 == Excess(Turns(blocks), max)
  {
    var h := History(system, user, blocks);
    if |h| <= 2 {
      assert blocks == [];
    } else {
      assert h[2..] == Flatten(blocks) && h[..2] == [SystemMessage(system), UserMessage(user)];
      GroupsOfBlocks(blocks);
      CountOfBlocks(blocks);
      KeepOfBlocks(blocks, Excess(Turns(blocks), max));
    }
  }

  // ---------------------------------------------------------------- what a provider is shown

  /** The messages of a conversation of which only the latest `turns` tool turns are shown, read from
      the end: each note as a user message, each shown turn as the assistant's calls followed by one
      tool message per call, with the call's id and its text. */
  function Visible(blocks: seq<Block>, turns: nat): seq<Message>
    requires AllCoherent(blocks)
    decreases |blocks|
  {
    if blocks == [] then []
    else
      var front := blocks[..|blocks| - 1];
      match blocks[|blocks| - 1]
      case Note(text) => Visible(front, turns) + [Message(User, text, [], "")]
      case Turn(calls, texts) =>
        if turns == 0 then Visible(front, 0)
        else
          assert Coherent(blocks[|blocks| - 1]);
          Visible(front, turns - 1) + [Message(Assistant, "", calls, "")]
            + seq(|calls|, i requires 0 <= i < |calls| => Message(Tool, texts[i], [], calls[i].id))
  }

  lemma {:induction false} DropAll(blocks: seq<Block>, k: nat)
    requires k >= Turns(blocks)
    ensures DropTurns(blocks, k) == DropTurns(blocks, Turns(blocks))
  {
    if blocks != [] && k > 0 {
      if blocks[0].Turn? {
        DropAll(blocks[1..], k - 1);
      } else {
        DropAll(blocks[1..], k);
        if Turns(blocks) == 0 {
          NothingToDrop(blocks[1..], k);
        }
      }
    }
  }

  lemma {:induction false} NothingToDrop(blocks: seq<Block>, k: nat)
    requires Turns(blocks) == 0
    ensures DropTurns(blocks, k) == blocks
  {
    if blocks != [] && k > 0 {
      NothingToDrop(blocks[1..], k);
    }
  }

  lemma WindowAppendTurn(front: seq<Block>, last: Block, max: nat)
    requires last.Turn?
    ensures Window(front + [last], max) == if max == 0 then Window(front, 0) else Window(front, max - 1) + [last]
  {
    TurnsAppend(front, last);
    hide Turns, DropTurns;
    if max == 0 {
      DropPast(front, last, Turns(front) + 1);
      DropAll(front, Turns(front) + 1);
      assert DropTurns(front, Turns(front)) + [] == DropTurns(front, Turns(front));
    } else {
      DropTurnsAppend(front, Excess(Turns(front), max - 1), last);
    }
  }

  /** What is seen from the end, one block further. */
  lemma VisibleNote(front: seq<Block>, text: string, max: nat)
    requires AllCoherent(front)
    ensures AllCoherent(front + [Note(text)]) && Visible(front + [Note(text)], max) == Visible(front, max) + BlockMessages(Note(text))
  {
    assert (front + [Note(text)])[..|front|] == front;
  }

  lemma VisibleTurn(front: seq<Block>, calls: seq<Call>, texts: seq<string>, max: nat)
    requires AllCoherent(front) && Coherent(Turn(calls, texts))
    ensures AllCoherent(front + [Turn(calls, texts)])
    ensures Visible(front + [Turn(calls, texts)], max) ==
            if max == 0 then Visible(front, 0) else Visible(front, max - 1) + BlockMessages(Turn(calls, texts))
  {
    var results := seq(|calls|, i requires 0 <= i < |calls| => Message(Tool, texts[i], [], calls[i].id));
    assert (front + [Turn(calls, texts)])[..|front|] == front;
    assert BlockMessages(Turn(calls, texts)) == [Message(Assistant, "", calls, "")] + results;
    if max > 0 {
      assert Visible(front, max - 1) + [Message(Assistant, "", calls, "")] + results
             == Visible(front, max - 1) + ([Message(Assistant, "", calls, "")] + results);
    }
  }

  /** Dropping the oldest turns and showing the latest are the same. */
  lemma {:induction false} WindowIsVisible(blocks: seq<Block>, max: nat)
    requires AllCoherent(blocks)
    ensures Flatten(Window(blocks, max)) == Visible(blocks, max)
    decreases |blocks|
  {
    if blocks != [] {
      var front, last := blocks[..|blocks| - 1], blocks[|blocks| - 1];
      assert blocks == front + [last] && Coherent(last) && AllCoherent(front);
      hide Window, Visible, Flatten, BlockMessages, AllCoherent;
      match last {
        case Note(text) =>
          WindowIsVisible(front, max);
          WindowAppendNote(front, text, max);
          FlattenAppend(Window(front, max), last);
          VisibleNote(front, text, max);
        case Turn(calls, texts) =>
          WindowAppendTurn(front, last, max);
          WindowIsVisible(front, if max == 0 then 0 else max - 1);
          VisibleTurn(front, calls, texts, max);
          if max > 0 {
            FlattenAppend(Window(front, max - 1), last);
          }
      }
    }
  }

  /** A whole message list: the instruction, the request, and what is shown of the conversation. */
  lemma HistoryIsVisible(system: string, user: string, blocks: seq<Block>, max: nat)
    requires AllCoherent(blocks)
    ensures History(system, user, Window(blocks, max))
         == [Message(System, system, [], ""), Message(User, user, [], "")] + Visible(blocks, max)
  {
    WindowIsVisible(blocks, max);
  }
}
