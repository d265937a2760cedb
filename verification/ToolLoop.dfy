/**
  The tool loops of the chat graph: the routers should_continue_tools and should_continue_tools_v2
  of infra_chat_graph.py, between the nodes that ask the model and the node that runs its calls.
*/
module ToolLoop {
  import opened Wrappers

  /** A tool call; two calls are compared by name and arguments, not by id. */
  datatype Call = Call(id: string, name: string, args: map<string, string>)

  datatype Message = System | Human(text: string) | Ai(calls: seq<Call>) | Tool(callId: string, ready: bool)

  datatype Key = Key(name: string, args: map<string, string>)

  datatype Verdict = Tools | Response

  function Keys(calls: seq<Call>): (r: seq<Key>)
    ensures |r| == |calls|
  {
    seq(|calls|, i requires 0 <= i < |calls| => Key(calls[i].name, calls[i].args))
  }

  predicate HasCalls(m: Message) { m.Ai? && m.calls != [] }

  // ---------------------------------------------------------------- what the backward scans look for

  /** The latest batch of calls since the last human message. */
  function LastBatch(messages: seq<Message>): Option<seq<Key>> {
    if messages == [] then None
    else
      var m := messages[|messages| - 1];
      if m.Human? then None
      else if HasCalls(m) then Some(Keys(m.calls))
      else LastBatch(messages[..|messages| - 1])
  }

  /** Whether the latest tool result since the last human message was "ready". */
  function LastReady(messages: seq<Message>): bool {
    if messages == [] then false
    else
      var m := messages[|messages| - 1];
      if m.Human? then false
      else if m.Tool? then m.ready
      else LastReady(messages[..|messages| - 1])
  }

  function Last(messages: seq<Message>): Message
    requires messages != []
  {
    messages[|messages| - 1]
  }

  function Before(messages: seq<Message>): seq<Message>
    requires messages != []
  {
    messages[..|messages| - 1]
  }

  /** should_continue_tools */
  function Continue(messages: seq<Message>): Verdict {
    if messages == [] || !HasCalls(Last(messages)) then Response
    else if LastBatch(Before(messages)) == Some(Keys(Last(messages).calls)) then Response
    else Tools
  }

  /** should_continue_tools_v2 */
  function ContinueV2(messages: seq<Message>): Verdict {
    if messages == [] || !HasCalls(Last(messages)) then Response
    else if LastReady(Before(messages)) then Response
    else Continue(messages)
  }

  /** Guard 2, shared by both routers: how often the calls were repeated in a row. */
  method CountRepeats(messages: seq<Message>, calls: seq<Call>) returns (repeats: nat)
    ensures repeats >= 1 <==> LastBatch(messages) == Some(Keys(calls))
  {
    repeats := 0;
    var j := |messages|;
    assert messages[..j] == messages;
    while j > 0
      invariant 0 <= j <= |messages|
      invariant if repeats == 0 then LastBatch(messages[..j]) == LastBatch(messages)
                else LastBatch(messages) == Some(Keys(calls))
    {
      j := j - 1;
      assert messages[..j + 1][..j] == messages[..j];
      var m := messages[j];
      if m.Human? { break; }
      if HasCalls(m) {
        if Keys(m.calls) == Keys(calls) { repeats := repeats + 1; } else { break; }
      }
    }
  }

  /** Guard 1 of the second router. */
  method FindReady(messages: seq<Message>) returns (ready: bool)
    ensures ready == LastReady(messages)
  {
    var j := |messages|;
    assert messages[..j] == messages;
    while j > 0
      invariant 0 <= j <= |messages| && LastReady(messages[..j]) == LastReady(messages)
    {
      j := j - 1;
      assert messages[..j + 1][..j] == messages[..j];
      var m := messages[j];
      if m.Human? { return false; }
      if m.Tool? { return m.ready; }
    }
    return false;
  }

  method ShouldContinueTools(messages: seq<Message>) returns (verdict: Verdict)
    ensures verdict == Continue(messages)
  {
    if messages != [] && HasCalls(Last(messages)) {
      var repeats := CountRepeats(Before(messages), Last(messages).calls);
      return if repeats >= 1 then Response else Tools;
    }
    return Response;
  }

  method ShouldContinueToolsV2(messages: seq<Message>) returns (verdict: Verdict)
    ensures verdict == ContinueV2(messages)
  {
    if messages != [] && HasCalls(Last(messages)) {
      var ready := FindReady(Before(messages));
      if ready { return Response; }
      var repeats := CountRepeats(Before(messages), Last(messages).calls);
      return if repeats >= 1 then Response else Tools;
    }
    return Response;
  }

  // ---------------------------------------------------------------- the nodes around the routers

  /** What a round brings from outside: the calls the model asks for, whether a placement note was
      added, what the tools answer, and the values logging_tool_node puts into the calls. */
  datatype Round = Round(calls: seq<Call>, note: bool, ready: seq<bool>, tenant: string, conversation: string)

  const TENANT_TOOLS: set<string> :=
    {"ValidateParams", "ReadEnvMaster", "ListEnvMaster", "ReadProductMaster", "ListProductMaster",
     "ReadRegionMaster", "ListRegionMaster", "ListDatabaseServers"}

  /** logging_tool_node writes the tenant, and for ValidateParams the conversation state, into the
      arguments of the very calls the message holds. */
  function Injected(c: Call, tenant: string, conversation: string): Call {
    if c.name !in TENANT_TOOLS then c
    else
      var args := if tenant != "" then c.args["tenant_id" := tenant] else c.args;
      c.(args := if c.name == "ValidateParams" then args["conversation_state" := conversation] else args)
  }

  function Run(r: Round): (calls: seq<Call>)
    ensures |calls| == |r.calls|
  {
    seq(|r.calls|, i requires 0 <= i < |r.calls| => Injected(r.calls[i], r.tenant, r.conversation))
  }

  function Results(r: Round): (results: seq<Message>)
    requires |r.ready| == |r.calls|
    ensures |results| == |r.calls|
  {
    seq(|r.calls|, i requires 0 <= i < |r.calls| => Tool(r.calls[i].id, r.ready[i]))
  }

  /** tool_node: one result for each call of the last message. */
  function ToolNode(messages: seq<Message>, r: Round): seq<Message>
    requires messages != [] && |r.ready| == |r.calls|
  {
    Before(messages) + [Ai(Run(r))] + Results(r)
  }

  /** reference_node appends the user's message every time it is entered. */
  function ReferenceNode(messages: seq<Message>, text: string, r: Round): seq<Message> {
    (if messages == [] then [System] else messages) + [Human(text), Ai(r.calls)]
  }

  predicate Answered(messages: seq<Message>, calls: seq<Call>) {
    exists i, j :: 0 <= i < |messages| && 0 <= j < |calls| && messages[i].Tool?
                   && messages[i].callId == calls[j].id
  }

  /** Trailing batches nobody answered are dropped. */
  function DropOrphans(messages: seq<Message>): seq<Message> {
    if messages != [] && HasCalls(Last(messages)) && !Answered(messages, Last(messages).calls)
    then DropOrphans(Before(messages)) else messages
  }

  /** create_flow_v2 appends the user's message unless the history holds it already. */
  function V2Context(messages: seq<Message>, text: string, r: Round): seq<Message> {
    var noted := if messages == [] then [System] else if r.note && text != "" then messages + [System] else messages;
    var kept := DropOrphans(noted);
    if text != "" && Human(text) !in kept then kept + [Human(text)] else kept
  }

  function V2Node(messages: seq<Message>, text: string, r: Round): seq<Message> {
    V2Context(messages, text, r) + [Ai(r.calls)]
  }

  predicate Complete(rounds: seq<Round>) { forall i :: 0 <= i < |rounds| ==> |rounds[i].ready| == |rounds[i].calls| }

  /** The rounds whose calls are executed in one turn of the second loop. */
  function LoopV2(messages: seq<Message>, text: string, rounds: seq<Round>): seq<Round>
    requires Complete(rounds)
    decreases |rounds|
  {
    if rounds == [] then []
    else
      var asked := V2Node(messages, text, rounds[0]);
      if ContinueV2(asked) == Response then []
      else [rounds[0]] + LoopV2(ToolNode(asked, rounds[0]), text, rounds[1..])
  }

  /** The rounds whose calls are executed in one turn of the reference loop. */
  function LoopReference(messages: seq<Message>, text: string, rounds: seq<Round>): seq<Round>
    requires Complete(rounds)
    decreases |rounds|
  {
    if rounds == [] then []
    else
      var asked := ReferenceNode(messages, text, rounds[0]);
      if Continue(asked) == Response then []
      else [rounds[0]] + LoopReference(ToolNode(asked, rounds[0]), text, rounds[1..])
  }

  // ---------------------------------------------------------------- the scans, declaratively

  /** Position i holds the latest message of its kind since the last human one. */
  ghost predicate LatestAt(messages: seq<Message>, i: int, kind: Message -> bool) {
    && 0 <= i < |messages| && kind(messages[i])
    && forall j :: i < j < |messages| ==> !messages[j].Human? && !kind(messages[j])
  }

  lemma {:induction false} LastBatchIff(messages: seq<Message>, keys: seq<Key>)
    ensures LastBatch(messages) == Some(keys) <==>
      exists i :: LatestAt(messages, i, HasCalls) && Keys(messages[i].calls) == keys
    decreases |messages|
  {
    if messages != [] {
      var before, m := Before(messages), Last(messages);
      LastBatchIff(before, keys);
      if HasCalls(m) {
        assert LatestAt(messages, |messages| - 1, HasCalls);
      } else if !m.Human? {
        if i :| LatestAt(before, i, HasCalls) && Keys(before[i].calls) == keys {
          assert LatestAt(messages, i, HasCalls);
        }
        if i :| LatestAt(messages, i, HasCalls) && Keys(messages[i].calls) == keys {
          assert LatestAt(before, i, HasCalls);
        }
      }
    }
  }

  lemma {:induction false} LastReadyIff(messages: seq<Message>)
    ensures LastReady(messages) <==>
      exists i :: LatestAt(messages, i, (m: Message) => m.Tool?) && messages[i].ready
    decreases |messages|
  {
    if messages != [] {
      var before, m := Before(messages), Last(messages);
      LastReadyIff(before);
      if m.Tool? {
        assert LatestAt(messages, |messages| - 1, (m: Message) => m.Tool?);
      } else if !m.Human? {
        if i :| LatestAt(before, i, (m: Message) => m.Tool?) && before[i].ready {
          assert LatestAt(messages, i, (m: Message) => m.Tool?);
        }
        if i :| LatestAt(messages, i, (m: Message) => m.Tool?) && messages[i].ready {
          assert LatestAt(before, i, (m: Message) => m.Tool?);
        }
      }
    }
  }

  // ---------------------------------------------------------------- one round

  lemma {:induction false} ToolsAreTransparent(messages: seq<Message>, results: seq<Message>)
    requires forall i :: 0 <= i < |results| ==> results[i].Tool?
    ensures LastBatch(messages + results) == LastBatch(messages)
    decreases |results|
  {
    if results == [] {
      assert messages + results == messages;
    } else {
      assert Before(messages + results) == messages + Before(results);
      ToolsAreTransparent(messages, Before(results));
    }
  }

  /** After the tools ran, the latest batch is the one that ran, with what was put into its calls. */
  lemma AfterTools(messages: seq<Message>, r: Round)
    requires messages != [] && r.calls != [] && |r.ready| == |r.calls|
    ensures var after := ToolNode(messages, r);
      && LastBatch(after) == Some(Keys(Run(r))) && Last(after).Tool?
      && (LastReady(after) <==> r.ready[|r.ready| - 1])
  {
    var ran := Before(messages) + [Ai(Run(r))];
    assert Before(ran) == Before(messages);
    assert LastBatch(ran) == Some(Keys(Run(r)));
    ToolsAreTransparent(ran, Results(r));
    var after := ran + Results(r);
    assert Last(after) == Results(r)[|r.calls| - 1];
  }

  lemma HumanStays(messages: seq<Message>, text: string, r: Round, next: Round)
    requires |r.ready| == |r.calls| && text != ""
    ensures Human(text) in ToolNode(V2Node(messages, text, r), r)
  {
    var context := V2Context(messages, text, r);
    assert Before(V2Node(messages, text, r)) == context;
    assert Human(text) in context;
  }

  /** Re-entering the node in the middle of a turn leaves what the guards see as it was. */
  lemma ReEntry(messages: seq<Message>, text: string, r: Round)
    requires messages != [] && Last(messages).Tool? && (text == "" || Human(text) in messages)
    ensures LastBatch(V2Context(messages, text, r)) == LastBatch(messages)
    ensures LastReady(V2Context(messages, text, r)) == LastReady(messages)
  {
    var noted := messages + [System];
    assert Before(noted) == messages && Last(noted) == System;
    assert text != "" ==> Human(text) in noted;
  }

  lemma VerdictV2(messages: seq<Message>, text: string, r: Round)
    ensures var context := V2Context(messages, text, r);
      ContinueV2(V2Node(messages, text, r)) == Tools <==>
        r.calls != [] && !LastReady(context) && LastBatch(context) != Some(Keys(r.calls))
  {
    var asked := V2Node(messages, text, r);
    assert Before(asked) == V2Context(messages, text, r) && Last(asked) == Ai(r.calls);
  }

  // ---------------------------------------------------------------- the second loop

  /** Within a turn the next batch runs exactly when it is a batch, the last result was not ready,
      and it differs from the previous batch as it was run. */
  lemma NextBatch(messages: seq<Message>, text: string, r: Round, next: Round)
    requires r.calls != [] && |r.ready| == |r.calls|
    ensures var after := ToolNode(V2Node(messages, text, r), r);
      ContinueV2(V2Node(after, text, next)) == Tools <==>
        next.calls != [] && !r.ready[|r.ready| - 1] && Keys(next.calls) != Keys(Run(r))
  {
    var asked := V2Node(messages, text, r);
    var after := ToolNode(asked, r);
    AfterTools(asked, r);
    if text != "" { HumanStays(messages, text, r, next); }
    ReEntry(after, text, next);
    VerdictV2(after, text, next);
  }

  predicate CanFollow(r: Round, next: Round) {
    r.ready != [] && !r.ready[|r.ready| - 1] && Keys(next.calls) != Keys(Run(r))
  }

  /** Batches that ran one after the other. */
  ghost predicate Guarded(ran: seq<Round>) {
    && (forall k :: 0 <= k < |ran| ==> ran[k].calls != [])
    && (forall k :: 0 <= k < |ran| - 1 ==> CanFollow(ran[k], ran[k + 1]))
  }

  lemma GuardedPrepend(r: Round, rest: seq<Round>)
    requires r.calls != [] && Guarded(rest) && (rest != [] ==> CanFollow(r, rest[0]))
    ensures Guarded([r] + rest)
  {
    var ran := [r] + rest;
    forall k | 0 <= k < |ran| - 1 ensures CanFollow(ran[k], ran[k + 1]) {
      if k > 0 { assert CanFollow(rest[k - 1], rest[k]); }
    }
  }

  lemma FirstRan(messages: seq<Message>, text: string, rounds: seq<Round>)
    requires Complete(rounds) && LoopV2(messages, text, rounds) != []
    ensures rounds != [] && LoopV2(messages, text, rounds)[0] == rounds[0]
    ensures ContinueV2(V2Node(messages, text, rounds[0])) == Tools
  {
  }

  /** The guard as it works: in any turn, from any history, the batches that run are the first
      ones asked for; a batch is never followed by one with the keys it ran with, nor by any batch
      when its last result was ready. */
  lemma {:induction false} LoopV2Guarded(messages: seq<Message>, text: string, rounds: seq<Round>)
    requires Complete(rounds)
    ensures LoopV2(messages, text, rounds) <= rounds && Guarded(LoopV2(messages, text, rounds))
    decreases |rounds|
  {
    if LoopV2(messages, text, rounds) != [] {
      FirstRan(messages, text, rounds);
      var r := rounds[0];
      var after := ToolNode(V2Node(messages, text, r), r);
      var rest := LoopV2(after, text, rounds[1..]);
      LoopV2Guarded(after, text, rounds[1..]);
      VerdictV2(messages, text, r);
      if rest != [] {
        FirstRan(after, text, rounds[1..]);
        NextBatch(messages, text, r, rounds[1]);
      }
      GuardedPrepend(r, rest);
    }
  }

  lemma OneRound(messages: seq<Message>, text: string, r: Round)
    requires |r.ready| == |r.calls|
    ensures LoopV2(messages, text, [r]) == if ContinueV2(V2Node(messages, text, r)) == Tools then [r] else []
  {
    assert [r][1..] == [];
  }

  /** logging_tool_node writes something into this call that is not there yet. */
  predicate Touched(c: Call, tenant: string, conversation: string) {
    c.name in TENANT_TOOLS
    && ((tenant != "" && !("tenant_id" in c.args && c.args["tenant_id"] == tenant))
        || (c.name == "ValidateParams"
            && !("conversation_state" in c.args && c.args["conversation_state"] == conversation)))
  }

  lemma InjectedIff(c: Call, tenant: string, conversation: string)
    ensures Injected(c, tenant, conversation).args != c.args <==> Touched(c, tenant, conversation)
    ensures Injected(c, tenant, conversation).name == c.name
  {
    var args := Injected(c, tenant, conversation).args;
    if c.name in TENANT_TOOLS {
      if tenant != "" { assert args["tenant_id"] == tenant; }
      if c.name == "ValidateParams" { assert args["conversation_state"] == conversation; }
      if !Touched(c, tenant, conversation) { assert args == c.args; }
    }
  }

  lemma RunChangesIff(r: Round)
    ensures Keys(Run(r)) != Keys(r.calls)
       <==> exists i :: 0 <= i < |r.calls| && Touched(r.calls[i], r.tenant, r.conversation)
  {
    forall i | 0 <= i < |r.calls|
      ensures Keys(Run(r))[i] != Keys(r.calls)[i] <==> Touched(r.calls[i], r.tenant, r.conversation)
    {
      InjectedIff(r.calls[i], r.tenant, r.conversation);
    }
    if Keys(Run(r)) != Keys(r.calls) {
      var i :| 0 <= i < |r.calls| && Keys(Run(r))[i] != Keys(r.calls)[i];
    }
  }

  /** A batch asked for twice in a row runs twice exactly when it holds a call to a tenant tool that
      lacks the tenant, or a ValidateParams call that lacks the conversation state: the tool node
      writes these into the first batch, and the second is compared with the result. */
  lemma RepeatRunsIff(messages: seq<Message>, text: string, r: Round, again: Round)
    requires |r.ready| == |r.calls| && |again.ready| == |again.calls| && r.calls != []
    requires Keys(again.calls) == Keys(r.calls)
    requires ContinueV2(V2Node(messages, text, r)) == Tools && !r.ready[|r.ready| - 1]
    ensures LoopV2(messages, text, [r, again]) == [r, again]
       <==> exists i :: 0 <= i < |r.calls| && Touched(r.calls[i], r.tenant, r.conversation)
  {
    var rounds, after := [r, again], ToolNode(V2Node(messages, text, r), r);
    RunChangesIff(r);
    NextBatch(messages, text, r, again);
    assert rounds[1..] == [again];
    OneRound(after, text, again);
  }

  // ---------------------------------------------------------------- where a turn begins

  /** A message that was not said before opens a fresh turn: its first batch runs. */
  lemma NewMessageOpensTurn(messages: seq<Message>, text: string, r: Round)
    requires text != "" && Human(text) !in messages
    ensures ContinueV2(V2Node(messages, text, r)) == Tools <==> r.calls != []
  {
    var noted := if messages == [] then [System] else if r.note && text != "" then messages + [System] else messages;
    DropKeepsPrefix(noted);
    var context := V2Context(messages, text, r);
    assert Last(context) == Human(text);
    VerdictV2(messages, text, r);
  }

  lemma {:induction false} DropKeepsPrefix(messages: seq<Message>)
    ensures DropOrphans(messages) <= messages
    decreases |messages|
  {
    if messages != [] && HasCalls(Last(messages)) && !Answered(messages, Last(messages).calls) {
      DropKeepsPrefix(Before(messages));
    }
  }

  /** Dropping unanswered batches keeps the latest result and every human message. */
  lemma {:induction false} DropKeeps(messages: seq<Message>, text: string)
    ensures LastReady(DropOrphans(messages)) == LastReady(messages)
    ensures Human(text) in messages ==> Human(text) in DropOrphans(messages)
    decreases |messages|
  {
    if messages != [] && HasCalls(Last(messages)) && !Answered(messages, Last(messages).calls) {
      assert messages == Before(messages) + [Last(messages)];
      DropKeeps(Before(messages), text);
    }
  }

  /** A message said before opens no turn: its first batch runs exactly when the previous turn did not
      end on a ready result and the batch differs from the last one that was answered, or from the
      last one at all when a placement note stands behind it. */
  lemma RepeatedMessageRunsIff(messages: seq<Message>, text: string, r: Round)
    requires text == "" || Human(text) in messages
    ensures ContinueV2(V2Node(messages, text, r)) == Tools
       <==> r.calls != [] && !LastReady(messages)
            && LastBatch(if r.note && text != "" then messages else DropOrphans(messages)) != Some(Keys(r.calls))
  {
    var context := V2Context(messages, text, r);
    VerdictV2(messages, text, r);
    if messages == [] {
      assert context == [System] && Before([System]) == [];
    } else if r.note && text != "" {
      var noted := messages + [System];
      assert Before(noted) == messages && Last(noted) == System;
      assert Human(text) in noted;
    } else {
      DropKeeps(messages, text);
    }
  }

  /** When the previous turn ended on a ready result, saying the same words again runs nothing. */
  lemma RepeatedMessageRunsNothing(messages: seq<Message>, text: string, rounds: seq<Round>)
    requires Complete(rounds) && (text == "" || Human(text) in messages) && LastReady(messages)
    ensures LoopV2(messages, text, rounds) == []
  {
    if rounds != [] { RepeatedMessageRunsIff(messages, text, rounds[0]); }
  }

  /** When it ended because the model repeated a batch, the same words run exactly a different batch. */
  lemma SameWordsAfterRefusal(messages: seq<Message>, text: string, refused: seq<Call>, r: Round)
    requires messages != [] && Last(messages).Tool? && Human(text) in messages && !LastReady(messages)
    requires refused != [] && LastBatch(messages) == Some(Keys(refused)) && !Answered(messages + [Ai(refused)], refused)
    ensures ContinueV2(V2Node(messages + [Ai(refused)], text, r)) == Tools
       <==> r.calls != [] && Keys(r.calls) != Keys(refused)
  {
    var asked := messages + [Ai(refused)];
    assert Before(asked) == messages && Last(asked) == Ai(refused);
    assert DropOrphans(asked) == messages;
    assert Human(text) in asked;
    RepeatedMessageRunsIff(asked, text, r);
  }

  // ---------------------------------------------------------------- the reference loop

  /** The reference loop puts the user's message between any two batches, where the scan stops:
      its repeat guard never fires and every batch runs, equal or not. */
  lemma {:induction false} ReferenceGuardNeverFires(messages: seq<Message>, text: string, rounds: seq<Round>)
    requires Complete(rounds) && forall i :: 0 <= i < |rounds| ==> rounds[i].calls != []
    ensures LoopReference(messages, text, rounds) == rounds
    decreases |rounds|
  {
    if rounds != [] {
      var asked := ReferenceNode(messages, text, rounds[0]);
      assert Last(Before(asked)) == Human(text);
      assert Last(asked) == Ai(rounds[0].calls);
      ReferenceGuardNeverFires(ToolNode(asked, rounds[0]), text, rounds[1..]);
    }
  }
}
