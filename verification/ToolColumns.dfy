/** The tool loops read off the messages: which messages the nodes write, where the guards look, and
    where a turn stops. */
module ToolColumns {
  import opened Wrappers
  import opened ToolLoop

  // ---------------------------------------------------------------- the routers

  /** Equal batches hold calls of the same names and arguments in the same order; ids do not count. */
  lemma SameKeysIff(a: seq<Call>, b: seq<Call>)
    ensures Keys(a) == Keys(b)
       <==> |a| == |b| && forall i :: 0 <= i < |a| ==> a[i].name == b[i].name && a[i].args == b[i].args
  {
    if Keys(a) == Keys(b) {
      forall i | 0 <= i < |a| ensures a[i].name == b[i].name && a[i].args == b[i].args {
        assert Keys(a)[i] == Keys(b)[i];
      }
    }
  }

  /** The latest message in front of the last that asks for tools, no human one being behind it, asks
      for the calls of the last. */
  ghost predicate Repeats(messages: seq<Message>) {
    && messages != [] && messages[|messages| - 1].Ai?
    && exists i :: 0 <= i < |messages| - 1 && messages[i].Ai? && messages[i].calls != []
         && (forall j :: i < j < |messages| - 1 ==>
               !messages[j].Human? && !(messages[j].Ai? && messages[j].calls != []))
         && Keys(messages[i].calls) == Keys(messages[|messages| - 1].calls)
  }

  /** The latest tool result in front of the last message, no human one being behind it, is ready. */
  ghost predicate ReadyBehind(messages: seq<Message>) {
    exists i :: 0 <= i < |messages| - 1 && messages[i].Tool? && messages[i].ready
      && forall j :: i < j < |messages| - 1 ==> !messages[j].Human? && !messages[j].Tool?
  }

  lemma RepeatsIff(messages: seq<Message>)
    requires messages != [] && HasCalls(Last(messages))
    ensures Repeats(messages) <==> LastBatch(Before(messages)) == Some(Keys(Last(messages).calls))
  {
    var before, keys := Before(messages), Keys(Last(messages).calls);
    LastBatchIff(before, keys);
    if i :| LatestAt(before, i, HasCalls) && Keys(before[i].calls) == keys {
      assert messages[i] == before[i];
      forall j | i < j < |messages| - 1
        ensures !messages[j].Human? && !(messages[j].Ai? && messages[j].calls != [])
      {
        assert messages[j] == before[j] && !HasCalls(before[j]);
      }
      assert Repeats(messages);
    }
    if Repeats(messages) {
      var i :| 0 <= i < |messages| - 1 && messages[i].Ai? && messages[i].calls != []
        && (forall j :: i < j < |messages| - 1 ==>
              !messages[j].Human? && !(messages[j].Ai? && messages[j].calls != []))
        && Keys(messages[i].calls) == keys;
      assert forall j :: 0 <= j < |before| ==> before[j] == messages[j];
      assert LatestAt(before, i, HasCalls);
    }
  }

  lemma {:induction false} ReadyAt(messages: seq<Message>)
    ensures LastReady(messages)
       <==> exists i :: 0 <= i < |messages| && messages[i].Tool? && messages[i].ready
              && forall j :: i < j < |messages| ==> !messages[j].Human? && !messages[j].Tool?
    decreases |messages|
  {
    if messages != [] {
      var before, m := Before(messages), Last(messages);
      ReadyAt(before);
      assert forall j :: 0 <= j < |before| ==> before[j] == messages[j];
      assert m == messages[|before|];
      if !m.Human? && !m.Tool? && LastReady(before) {
        var i :| 0 <= i < |before| && before[i].Tool? && before[i].ready
          && forall j :: i < j < |before| ==> !before[j].Human? && !before[j].Tool?;
        assert messages[i].Tool? && messages[i].ready;
      }
    }
  }

  /** The first router goes to the tools exactly when the last message asks for some and does not
      repeat the latest batch of the turn. */
  lemma ContinueIff(messages: seq<Message>)
    ensures Continue(messages) == Tools
       <==> messages != [] && messages[|messages| - 1].Ai? && messages[|messages| - 1].calls != []
            && !Repeats(messages)
  {
    if messages != [] && HasCalls(Last(messages)) { RepeatsIff(messages); }
  }

  /** The second also stops when the latest result of the turn was ready. */
  lemma ContinueV2Iff(messages: seq<Message>)
    ensures ContinueV2(messages) == Tools
       <==> messages != [] && messages[|messages| - 1].Ai? && messages[|messages| - 1].calls != []
            && !ReadyBehind(messages) && !Repeats(messages)
  {
    ContinueIff(messages);
    if messages != [] && HasCalls(Last(messages)) {
      var before := Before(messages);
      ReadyAt(before);
      assert forall j :: 0 <= j < |before| ==> before[j] == messages[j];
    }
  }

  // ---------------------------------------------------------------- the tool node

  /** The tools that get the tenant. */
  predicate TakesTenant(name: string) {
    || name == "ValidateParams"
    || name == "ReadEnvMaster" || name == "ListEnvMaster"
    || name == "ReadProductMaster" || name == "ListProductMaster"
    || name == "ReadRegionMaster" || name == "ListRegionMaster"
    || name == "ListDatabaseServers"
  }

  /** The call as it runs keeps its id and name and every argument but two: the tenant, written for
      the tools that take it when there is one, and the conversation state, written for ValidateParams. */
  lemma InjectedIs(c: Call, tenant: string, conversation: string)
    ensures var run := Injected(c, tenant, conversation);
      && run.id == c.id && run.name == c.name
      && (TakesTenant(c.name) && tenant != "" ==> "tenant_id" in run.args && run.args["tenant_id"] == tenant)
      && (c.name == "ValidateParams" ==>
            "conversation_state" in run.args && run.args["conversation_state"] == conversation)
      && (forall k | (k != "tenant_id" || tenant == "" || !TakesTenant(c.name))
                     && (k != "conversation_state" || c.name != "ValidateParams") ::
            (k in run.args <==> k in c.args) && (k in c.args ==> run.args[k] == c.args[k]))
  {
    assert TakesTenant(c.name) <==> c.name in TENANT_TOOLS;
    var args := Injected(c, tenant, conversation).args;
    assert c.name == "ValidateParams" ==> args["conversation_state"] == conversation;
  }

  /** The tool node rewrites the last message's calls and appends one result for each, in order and
      under the call's id; every earlier message stays. */
  lemma ToolNodeIs(messages: seq<Message>, r: Round)
    requires messages != [] && |r.ready| == |r.calls|
    ensures var after := ToolNode(messages, r);
      && |after| == |messages| + |r.calls|
      && (forall i :: 0 <= i < |messages| - 1 ==> after[i] == messages[i])
      && after[|messages| - 1].Ai? && |after[|messages| - 1].calls| == |r.calls|
      && (forall i :: 0 <= i < |r.calls| ==>
            after[|messages| - 1].calls[i] == Injected(r.calls[i], r.tenant, r.conversation))
      && forall i :: 0 <= i < |r.calls| ==> after[|messages| + i] == Tool(r.calls[i].id, r.ready[i])
  {
    var after := ToolNode(messages, r);
    var results := Results(r);
    forall i | 0 <= i < |r.calls| ensures after[|messages| + i] == Tool(r.calls[i].id, r.ready[i]) {
      assert after[|messages| + i] == results[i];
    }
  }

  // ---------------------------------------------------------------- the model nodes

  /** reference_node opens an empty history with the system prompt and always appends the words said
      and the model's answer. */
  lemma ReferenceNodeIs(messages: seq<Message>, text: string, r: Round)
    ensures messages == [] ==> ReferenceNode(messages, text, r) == [System, Human(text), Ai(r.calls)]
    ensures var asked := ReferenceNode(messages, text, r);
      messages != [] ==>
        && |asked| == |messages| + 2 && asked[..|messages|] == messages
        && asked[|messages|] == Human(text) && asked[|messages| + 1] == Ai(r.calls)
  {
  }

  /** A message that asks for calls of which no message of the history answers any. */
  ghost predicate Unanswered(messages: seq<Message>, i: int)
    requires 0 <= i < |messages|
  {
    && messages[i].Ai? && messages[i].calls != []
    && forall k, c :: 0 <= k <= i && 0 <= c < |messages[i].calls| && messages[k].Tool?
                ==> messages[k].callId != messages[i].calls[c].id
  }

  /** What is dropped is the longest run of unanswered batches at the end. */
  lemma {:induction false} DropOrphansIs(messages: seq<Message>) returns (kept: nat)
    ensures kept <= |messages| && DropOrphans(messages) == messages[..kept]
    ensures forall i :: kept <= i < |messages| ==> Unanswered(messages, i)
    ensures kept > 0 ==> !Unanswered(messages, kept - 1)
    decreases |messages|
  {
    kept := |messages|;
    assert messages[..kept] == messages;
    if messages != [] {
      UnansweredIff(messages);
      if Unanswered(messages, |messages| - 1) {
        var before := Before(messages);
        kept := DropOrphansIs(before);
        forall i | 0 <= i < |before| ensures Unanswered(messages, i) <==> Unanswered(before, i) {
          UnansweredBefore(messages, i);
        }
        assert messages[..kept] == before[..kept];
      }
    }
  }

  lemma UnansweredIff(messages: seq<Message>)
    requires messages != []
    ensures Unanswered(messages, |messages| - 1)
       <==> HasCalls(Last(messages)) && !Answered(messages, Last(messages).calls)
  {
    assert Last(messages) == messages[|messages| - 1];
  }

  lemma UnansweredBefore(messages: seq<Message>, i: nat)
    requires i < |messages| - 1
    ensures Unanswered(messages, i) <==> Unanswered(Before(messages), i)
  {
    assert forall k :: 0 <= k < |messages| - 1 ==> Before(messages)[k] == messages[k];
  }

  /** create_flow_v2 opens an empty history with the system prompt, adds the placement note when there
      is one and words are said, drops the unanswered batches at the end, and appends the words unless
      they are empty or the history kept holds them; then the model's answer. */
  lemma V2NodeIs(messages: seq<Message>, text: string, r: Round, noted: seq<Message>) returns (kept: nat)
    requires messages == [] ==> noted == [System]
    requires messages != [] && r.note && text != "" ==> noted == messages + [System]
    requires messages != [] && !(r.note && text != "") ==> noted == messages
    ensures kept <= |noted|
    ensures forall i :: kept <= i < |noted| ==> Unanswered(noted, i)
    ensures kept > 0 ==> !Unanswered(noted, kept - 1)
    ensures V2Node(messages, text, r)
         == noted[..kept] + if text != "" && forall i :: 0 <= i < kept ==> noted[i] != Human(text)
                            then [Human(text), Ai(r.calls)] else [Ai(r.calls)]
  {
    kept := DropOrphansIs(noted);
    var rest := noted[..kept];
    assert Human(text) in rest <==> exists i :: 0 <= i < kept && noted[i] == Human(text);
  }

  // ---------------------------------------------------------------- where a turn stops

  /** Nothing runs in a turn of the second loop exactly when the router refuses the first batch. */
  lemma NothingRunsIff(messages: seq<Message>, text: string, rounds: seq<Round>)
    requires Complete(rounds) && rounds != []
    ensures LoopV2(messages, text, rounds) == [] <==> ContinueV2(V2Node(messages, text, rounds[0])) == Response
  {
    if LoopV2(messages, text, rounds) != [] { FirstRan(messages, text, rounds); }
  }

  /** A turn that runs some batches stops before one that is empty, equals the batch run before it, or
      follows a ready result: the loop goes on as long as it may. */
  lemma {:induction false} StopsBefore(messages: seq<Message>, text: string, rounds: seq<Round>, n: nat)
    requires Complete(rounds) && n == |LoopV2(messages, text, rounds)| && 0 < n < |rounds|
    ensures rounds[n].calls == [] || !CanFollow(rounds[n - 1], rounds[n])
    decreases |rounds|
  {
    FirstRan(messages, text, rounds);
    VerdictV2(messages, text, rounds[0]);
    var r, later := rounds[0], rounds[1..];
    var after := ToolNode(V2Node(messages, text, r), r);
    RunsOn(messages, text, rounds, after);
    if n == 1 {
      NothingRunsIff(after, text, later);
      NextBatch(messages, text, r, later[0]);
    } else {
      StopsBefore(after, text, later, n - 1);
    }
  }

  lemma RunsOn(messages: seq<Message>, text: string, rounds: seq<Round>, after: seq<Message>)
    requires Complete(rounds) && rounds != [] && ContinueV2(V2Node(messages, text, rounds[0])) == Tools
    requires after == ToolNode(V2Node(messages, text, rounds[0]), rounds[0])
    ensures LoopV2(messages, text, rounds) == [rounds[0]] + LoopV2(after, text, rounds[1..])
  {
  }
}
