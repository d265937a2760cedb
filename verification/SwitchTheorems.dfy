/**
  Theorems about whole conversations: what every sequence of turns keeps, where the results of
  tool calls come back to, and when one CREATE can follow another.
*/
module SwitchTheorems {
  import opened Wrappers
  import opened PyText
  import opened SwitchMachine

  // ---------------------------------------------------------------- what every turn keeps

  /** A running CREATE names its resource and a running REFERENCE its tool. */
  predicate HintOk(h: Hint) {
    match h.intent
    case NoIntent => h.resource == "" && h.tool == ""
    case Create => h.resource != "" && h.tool == ""
    case Reference => h.tool != ""
    case _ => false
  }

  /** Nothing suspended, no question pending. */
  predicate Quiet(s: State) { s.history == [] && s.pending.None? && !s.awaiting && s.matches == [] }

  predicate Good(s: State) { Quiet(s) && HintOk(s.hint) }

  /** The rule the node comes down to while nothing is suspended: questions and unsupported turns
      change nothing, another CREATE is refused, anything else starts what it names. */
  function NextHint(h: Hint, intent: Intent, resource: string, tool: string): Hint {
    if intent == Qa || intent == Unsupported then h
    else if IsSwap(h, intent, resource) then h
    else StartHint(intent, resource, tool)
  }

  /** A CREATE of one resource while a CREATE of another is running. */
  predicate IsSwap(h: Hint, intent: Intent, resource: string) {
    h.intent == Create && intent == Create && resource != "" && resource != h.resource
  }

  predicate SameWorkflow(g: Hint, h: Hint) { g.intent == h.intent && g.resource == h.resource && g.tool == h.tool }

  /** With nothing suspended the middle part of the node refuses or starts. */
  lemma QuietMiddle(s: State, tool: string, number: Option<int>, now: int)
    requires Quiet(s) && (s.turnIntent == Create || s.turnIntent == Reference || s.turnIntent == NoIntent)
    ensures Switch(s, tool, false, number, now) ==
      if IsSwap(s.hint, s.turnIntent, s.turnResource) then s.(status := Blocked, turnIntent := Unsupported)
      else Start(s, tool, false)
  {
    assert Matches(s.history, s.turnIntent, s.turnResource, tool) == [];
  }

  /** The whole node with nothing suspended. */
  function SimpleSwitch(s: State): State {
    var tool := EffectiveTool(s);
    if s.turnIntent == Qa || s.turnIntent == Unsupported then s.(status := PassThrough)
    else if IsSwap(s.hint, s.turnIntent, s.turnResource) then s.(status := Blocked, turnIntent := Unsupported)
    else if s.hint.intent != NoIntent && !IsSwitch(s, tool) then s.(status := PassThrough)
    else Start(s, tool, false)
  }

  lemma QuietIsSimple(s: State, number: Option<int>, now: int)
    requires Good(s)
    ensures SwitchIntent(s, number, now) == SimpleSwitch(s)
  {
    if s.turnIntent != Qa && s.turnIntent != Unsupported { QuietMiddle(s, EffectiveTool(s), number, now); }
  }

  /** What one pass of the node does to a quiet state. */
  ghost predicate Simple(s: State, after: State) {
    && Quiet(after) && SameWorkflow(after.hint, NextHint(s.hint, s.turnIntent, s.turnResource, EffectiveTool(s)))
    && after.turnResource == s.turnResource
    && after.collected == s.collected && after.remaining == s.remaining
    && (after.status == Blocked <==> IsSwap(s.hint, s.turnIntent, s.turnResource))
    && (after.status == Blocked ==> after.hint == s.hint)
    && (after.status == Blocked || after.status == PassThrough)
    && after.turnIntent == (if after.status == Blocked then Unsupported else s.turnIntent)
  }

  /** Continuing a workflow is starting it again. */
  lemma ContinueIsStart(h: Hint)
    requires HintOk(h) && h.intent != NoIntent
    ensures SameWorkflow(h, StartHint(h.intent, h.resource, h.tool))
  {
  }

  lemma SimpleHolds(s: State)
    requires Good(s)
    ensures Simple(s, SimpleSwitch(s))
  {
    if s.hint.intent != NoIntent { ContinueIsStart(s.hint); }
    if s.turnIntent == Qa || s.turnIntent == Unsupported {
      assert NextHint(s.hint, s.turnIntent, s.turnResource, EffectiveTool(s)) == s.hint;
    } else if !IsSwap(s.hint, s.turnIntent, s.turnResource) {
      StartedIsSimple(s, EffectiveTool(s));
    }
  }

  lemma StartedIsSimple(s: State, tool: string)
    requires Good(s) && tool == EffectiveTool(s)
    requires s.turnIntent != Qa && s.turnIntent != Unsupported && !IsSwap(s.hint, s.turnIntent, s.turnResource)
    ensures Simple(s, Start(s, tool, false))
  {
  }

  lemma QuietSwitch(s: State, number: Option<int>, now: int)
    requires Good(s)
    ensures Simple(s, SwitchIntent(s, number, now)) && HintOk(SwitchIntent(s, number, now).hint)
  {
    QuietIsSimple(s, number, now);
    SimpleHolds(s);
    NextHintOk(s.hint, s.turnIntent, s.turnResource, EffectiveTool(s));
  }

  lemma NextHintOk(h: Hint, intent: Intent, resource: string, tool: string)
    requires HintOk(h)
    ensures HintOk(NextHint(h, intent, resource, tool))
  {
  }

  function Detected(s: State, t: Turn): State
    requires t.Message?
  {
    Detect(Init(s, t.message), t.detection)
  }

  lemma QuietRouted(s: State, t: Turn)
    requires Good(s) && t.Message?
    ensures var d, o := Detected(s, t), Routed(s, t);
      && o.state == SwitchIntent(d, t.number, t.now) && Simple(d, o.state) && Good(o.state)
      && o.place == PlaceOf(o.state, t)
  {
    QuietSwitch(Detected(s, t), t.number, t.now);
  }

  /** The node a turn goes on to when no question is pending. */
  function PlaceOf(s: State, t: Turn): Place
    requires t.Message?
  {
    if s.status == Blocked then ResponseHandler
    else match s.turnIntent
      case Create =>
        if IsV2(s.turnResource) then CreateFlowV2
        else EdgeFromPlacement(s, t.work.needsInput, t.work.missingPlacement)
      case Reference => ReferenceNode
      case Qa => QaExecution
      case _ => UnsupportedExecution
  }

  lemma {:induction false} RunGood(turns: seq<Turn>)
    ensures Good(Run(turns))
    decreases |turns|
  {
    if turns != [] {
      var before, t := Run(turns[..|turns| - 1]), turns[|turns| - 1];
      RunGood(turns[..|turns| - 1]);
      if t.Message? { QuietRouted(before, t); }
    }
  }

  /** From a fresh thread, whatever the model says: nothing is ever suspended, no question is ever
      pending, and the hint names a workflow completely or not at all. */
  lemma HistoryStaysEmpty(turns: seq<Turn>)
    ensures Run(turns).history == [] && Run(turns).pending == None
    ensures !Run(turns).awaiting && Run(turns).matches == []
    ensures HintOk(Run(turns).hint)
  {
    RunGood(turns);
  }

  lemma StepFollowsRule(s: State, t: Turn)
    requires Good(s) && t.Message?
    ensures var d := Detected(s, t);
      SameWorkflow(Step(s, t).hint, NextHint(s.hint, d.turnIntent, d.turnResource, EffectiveTool(d)))
  {
    QuietRouted(s, t);
    WorkKeepsWorkflow(Routed(s, t).state, Routed(s, t).place, t.work);
  }

  lemma WorkKeepsWorkflow(s: State, place: Place, w: Work)
    ensures SameWorkflow(Worked(s, place, w).hint, s.hint)
  {
  }

  /** On every reachable state the node follows the simple rule. */
  lemma TurnFollowsRule(turns: seq<Turn>, t: Turn)
    requires t.Message?
    ensures var d := Detected(Run(turns), t);
      SameWorkflow(Step(Run(turns), t).hint, NextHint(Run(turns).hint, d.turnIntent, d.turnResource, EffectiveTool(d)))
  {
    RunGood(turns);
    StepFollowsRule(Run(turns), t);
  }

  // ---------------------------------------------------------------- tool results

  lemma StepReturns(s: State, t: Turn)
    requires Good(s) && t.Message?
    requires Routed(s, t).place == CreateFlowV2 || Routed(s, t).place == DbUserManagement
    ensures Detected(s, t).turnIntent == Create
    ensures RouteFromTool(Step(s, t)) == Routed(s, t).place
  {
    QuietRouted(s, t);
    var d, o := Detected(s, t), Routed(s, t);
    CreateRoute(d, o.state, t);
    assert RouteFromTool(Step(s, t)) == RouteFromTool(o.state);
  }

  lemma CreateRoute(d: State, after: State, t: Turn)
    requires t.Message? && Simple(d, after) && HintOk(after.hint)
    requires PlaceOf(after, t) == CreateFlowV2 || PlaceOf(after, t) == DbUserManagement
    ensures d.turnIntent == Create && RouteFromTool(after) == PlaceOf(after, t)
  {
    CreateHint(d, after, t);
    EmptyIsPlain();
    V2IsNotDbUser(after.hint.resource);
  }

  /** Only a CREATE goes to these nodes, and then the hint names the resource of the turn. */
  lemma CreateHint(d: State, after: State, t: Turn)
    requires t.Message? && Simple(d, after)
    requires PlaceOf(after, t) == CreateFlowV2 || PlaceOf(after, t) == DbUserManagement
    ensures d.turnIntent == Create && after.hint.resource == after.turnResource == d.turnResource
  {
  }

  /** Tool results return to their issuer: a turn that works in create_flow_v2 or
      db_user_management_node is a CREATE, and its hint routes tool results to that same node. */
  lemma ToolResultsReturn(turns: seq<Turn>, t: Turn)
    requires t.Message?
    requires Routed(Run(turns), t).place == CreateFlowV2 || Routed(Run(turns), t).place == DbUserManagement
    ensures Detected(Run(turns), t).turnIntent == Create
    ensures RouteFromTool(Step(Run(turns), t)) == Routed(Run(turns), t).place
  {
    RunGood(turns);
    StepReturns(Run(turns), t);
  }

  lemma EmptyIsPlain()
    ensures !IsV2("") && !IsDbUser("")
  {
    assert Lower(Strip("")) == "";
    assert "" !in CANONICAL;
  }

  lemma V2IsNotDbUser(resource: string)
    ensures !(IsV2(resource) && IsDbUser(resource))
  {
    assert forall name :: name in V2_RESOURCES ==> |name| != 36;
    assert |"database_user_infrastructuretype_ref"| == 36;
  }

  /** Where a REFERENCE turn's hint sends tool results. */
  lemma ReferenceRoute(d: State, after: State)
    requires Simple(d, after) && HintOk(after.hint) && HintOk(d.hint) && d.turnIntent == Reference
    ensures RouteFromTool(after) == ReferenceNode <==>
      EffectiveTool(d) == "" || !(IsV2(d.turnResource) || IsDbUser(d.turnResource))
  {
    EmptyIsPlain();
  }

  /** A REFERENCE turn gets its tool results back exactly when no tool is known or the resource
      it names is not one of the resources with a node of their own. */
  lemma ReferenceReturnsIff(turns: seq<Turn>, t: Turn)
    requires t.Message? && Routed(Run(turns), t).place == ReferenceNode
    ensures var d := Detected(Run(turns), t);
      RouteFromTool(Step(Run(turns), t)) == ReferenceNode <==>
        EffectiveTool(d) == "" || !(IsV2(d.turnResource) || IsDbUser(d.turnResource))
  {
    RunGood(turns);
    StepReference(Run(turns), t);
  }

  lemma StepReference(s: State, t: Turn)
    requires Good(s) && t.Message? && Routed(s, t).place == ReferenceNode
    ensures var d := Detected(s, t);
      RouteFromTool(Step(s, t)) == ReferenceNode <==>
        EffectiveTool(d) == "" || !(IsV2(d.turnResource) || IsDbUser(d.turnResource))
  {
    QuietRouted(s, t);
    ReferenceRoute(Detected(s, t), Routed(s, t).state);
  }

  /** Asking which buckets exist: the results of the listing tool go to create_flow_v2. */
  lemma ReferenceMisrouted(message: string, tool: string, work: Work)
    requires message != "" && tool != ""
    ensures var t := Message(message, Detection(Reference, "s3", tool), None, 0, work);
      Routed(FRESH, t).place == ReferenceNode && RouteFromTool(Step(FRESH, t)) == CreateFlowV2
  {
    var t := Message(message, Detection(Reference, "s3", tool), None, 0, work);
    assert Run([]) == FRESH;
    QuietRouted(FRESH, t);
    S3IsV2();
    V2IsNotDbUser("s3");
  }

  lemma S3IsV2()
    ensures IsV2("s3")
  {
    assert StripLeft("s3") == "s3" && StripRight("s3") == "s3";
    assert Lower("s3") == ['s'] + Lower("3");
    assert Lower("3") == "3";
    assert Lower("s3") == "s3";
  }

  // ---------------------------------------------------------------- from one CREATE to another

  /** No turn takes a running CREATE of one resource to a running CREATE of another. */
  lemma NoDirectSwap(turns: seq<Turn>, t: Turn)
    requires Run(turns).hint.intent == Create && Step(Run(turns), t).hint.intent == Create
    ensures Step(Run(turns), t).hint.resource == Run(turns).hint.resource
  {
    if t.Message? { TurnFollowsRule(turns, t); }
  }

  /** The turn that tries is answered at once and changes neither the hint nor the parameters;
      nothing else is refused. */
  lemma SwapIsRefused(turns: seq<Turn>, t: Turn)
    requires t.Message?
    ensures var s, d, o := Run(turns), Detected(Run(turns), t), Routed(Run(turns), t);
      && (o.state.status == Blocked <==> IsSwap(s.hint, d.turnIntent, d.turnResource))
      && (o.state.status == Blocked ==>
            o.place == ResponseHandler && Step(s, t) == o.state && Step(s, t).hint == s.hint
            && Step(s, t).collected == s.collected && Step(s, t).remaining == s.remaining)
  {
    RunGood(turns);
    var s := Run(turns);
    QuietRouted(s, t);
  }

  function Say(message: string, intent: Intent, resource: string, tool: string, work: Work): Turn {
    Message(message, Detection(intent, resource, tool), None, 0, work)
  }

  /** Two turns can do what one cannot: a REFERENCE in between and the second CREATE runs, and what
      was collected for the first resource is still there when it starts. */
  lemma SwapInTwoTurns(turns: seq<Turn>, message: string, tool: string, other: string, w: Work, v: Work)
    requires Run(turns).hint.intent == Create && message != "" && other != "" && tool != ""
    ensures var s := Run(turns);
      var between := Step(s, Say(message, Reference, "", tool, w));
      var after := Routed(between, Say(message, Create, other, "", v)).state;
      && after.hint.intent == Create && after.hint.resource == other
      && after.collected == s.collected && after.remaining == s.remaining
  {
    RunGood(turns);
    var s := Run(turns);
    QuietRouted(s, Say(message, Reference, "", tool, w));
    QuietRouted(Step(s, Say(message, Reference, "", tool, w)), Say(message, Create, other, "", v));
  }

  // ---------------------------------------------------------------- interruptions

  /** A turn that asks a question, is not supported, is stopped by the guardrail, or for which the
      model fails. */
  predicate Interrupts(t: Turn) {
    match t
    case Cleared => false
    case GuardrailBlocked(_) => true
    case Message(_, d, _, _, _) => d.Failed? || d.intent == Qa || d.intent == Unsupported
  }

  lemma InterruptionKeeps(s: State, t: Turn)
    requires Good(s) && Interrupts(t)
    ensures var after := Step(s, t);
      Good(after) && after.hint == s.hint && after.collected == s.collected && after.remaining == s.remaining
  {
    if t.Message? {
      QuietRouted(s, t);
      QuietIsSimple(Detected(s, t), t.number, t.now);
    }
  }

  function RunFrom(s: State, turns: seq<Turn>): State
    decreases |turns|
  {
    if turns == [] then s else RunFrom(Step(s, turns[0]), turns[1..])
  }

  /** However many interruptions in a row, the running workflow and its parameters are untouched. */
  lemma {:induction false} InterruptionsKeepTheWorkflow(s: State, turns: seq<Turn>)
    requires Good(s) && forall i :: 0 <= i < |turns| ==> Interrupts(turns[i])
    ensures var after := RunFrom(s, turns);
      after.hint == s.hint && after.collected == s.collected && after.remaining == s.remaining
    decreases |turns|
  {
    if turns != [] {
      InterruptionKeeps(s, turns[0]);
      InterruptionsKeepTheWorkflow(Step(s, turns[0]), turns[1..]);
    }
  }

  // ---------------------------------------------------------------- resuming, on any state

  /** Position i holds the only session the turn asks for. */
  ghost predicate OnlyMatch(history: seq<Entry>, intent: Intent, resource: string, tool: string, i: int) {
    && 0 <= i < |history| && IsMatch(history[i].session, intent, resource, tool)
    && forall j :: 0 <= j < |history| && j != i ==> !IsMatch(history[j].session, intent, resource, tool)
  }

  lemma {:induction false} NoMatchIff(history: seq<Entry>, intent: Intent, resource: string, tool: string)
    ensures Matches(history, intent, resource, tool) == [] <==>
      forall j :: 0 <= j < |history| ==> !IsMatch(history[j].session, intent, resource, tool)
    decreases |history|
  {
    if history != [] { NoMatchIff(history[..|history| - 1], intent, resource, tool); }
  }

  lemma {:induction false} OneMatchIff(history: seq<Entry>, intent: Intent, resource: string, tool: string)
    ensures |Matches(history, intent, resource, tool)| == 1
          <==> exists i :: OnlyMatch(history, intent, resource, tool, i)
    ensures forall i :: OnlyMatch(history, intent, resource, tool, i) ==>
      Matches(history, intent, resource, tool) == [history[i]]
    decreases |history|
  {
    if history != [] {
      var before, n := history[..|history| - 1], |history| - 1;
      OneMatchIff(before, intent, resource, tool);
      NoMatchIff(before, intent, resource, tool);
      if IsMatch(history[n].session, intent, resource, tool) {
        if Matches(before, intent, resource, tool) == [] { assert OnlyMatch(history, intent, resource, tool, n); }
        assert forall i :: OnlyMatch(history, intent, resource, tool, i) ==> i == n;
      } else {
        if i :| OnlyMatch(before, intent, resource, tool, i) { assert OnlyMatch(history, intent, resource, tool, i); }
        forall i | OnlyMatch(history, intent, resource, tool, i) ensures OnlyMatch(before, intent, resource, tool, i) {
          assert i != n && forall j :: 0 <= j < n ==> before[j] == history[j];
        }
      }
    }
  }

  lemma ResumesOnOne(s: State, number: Option<int>, now: int)
    requires (s.turnIntent == Create || s.turnIntent == Reference) && s.pending.None? && !s.awaiting
    requires s.hint.intent != NoIntent && IsSwitch(s, EffectiveTool(s))
    ensures var after := SwitchIntent(s, number, now);
      var found := Matches(s.history, s.turnIntent, s.turnResource, EffectiveTool(s));
      if |found| == 1 then after == Resume(s, found[0].session)
      else after.status != Resuming && after.history == s.history
  {
    IsMiddle(s, EffectiveTool(s), number, now);
    MiddleOnOne(s, EffectiveTool(s), number, now);
  }

  lemma IsMiddle(s: State, tool: string, number: Option<int>, now: int)
    requires (s.turnIntent == Create || s.turnIntent == Reference) && s.pending.None? && tool == EffectiveTool(s)
    requires s.hint.intent != NoIntent && IsSwitch(s, tool)
    ensures SwitchIntent(s, number, now) == Switch(s, tool, false, number, now)
  {
  }

  lemma MiddleOnOne(s: State, tool: string, number: Option<int>, now: int)
    requires (s.turnIntent == Create || s.turnIntent == Reference) && !s.awaiting
    ensures var after := Switch(s, tool, false, number, now);
      var found := Matches(s.history, s.turnIntent, s.turnResource, tool);
      if |found| == 1 then after == Resume(s, found[0].session)
      else after.status != Resuming && after.history == s.history
  {
  }

  /** With no question pending, a CREATE or REFERENCE turn that leaves the running workflow resumes
      a suspended session exactly when one and only one fits, and takes over all it had. */
  lemma ResumesIff(s: State, number: Option<int>, now: int)
    requires (s.turnIntent == Create || s.turnIntent == Reference) && s.pending.None? && !s.awaiting
    requires s.hint.intent != NoIntent && IsSwitch(s, EffectiveTool(s))
    ensures var after, tool := SwitchIntent(s, number, now), EffectiveTool(s);
      && (after.status == Resuming <==> exists i :: OnlyMatch(s.history, s.turnIntent, s.turnResource, tool, i))
      && after.history == s.history
      && forall i :: OnlyMatch(s.history, s.turnIntent, s.turnResource, tool, i) ==>
           var session := s.history[i].session;
           && after.hint.intent == session.intent && after.hint.resource == session.resource
           && after.hint.phase == session.phase && after.hint.tool == session.tool && after.tool == session.tool
           && after.collected == session.collected && after.remaining == session.remaining
  {
    OneMatchIff(s.history, s.turnIntent, s.turnResource, EffectiveTool(s));
    ResumesOnOne(s, number, now);
  }

  // ---------------------------------------------------------------- the confirmation node, on any state

  lemma {:induction false} StatusWritten(history: seq<Entry>, key: SessionKey, status: SessionStatus, i: nat)
    requires i < |history|
    ensures var after := SetStatus(history, key, status);
      && |after| == |history| && after[i].key == history[i].key
      && after[i].session
          == (if history[i].key == key then history[i].session.(status := status) else history[i].session)
    decreases |history|
  {
    StatusLength(history, key, status);
    if i > 0 { StatusWritten(history[1..], key, status, i - 1); }
  }

  lemma {:induction false} StatusLength(history: seq<Entry>, key: SessionKey, status: SessionStatus)
    ensures |SetStatus(history, key, status)| == |history|
    decreases |history|
  {
    if history != [] { StatusLength(history[1..], key, status); }
  }

  /** Only the asked-about session changes, and only its status. */
  ghost predicate OnlyStatus(before: seq<Entry>, after: seq<Entry>, key: SessionKey, status: SessionStatus) {
    && |after| == |before|
    && forall i :: 0 <= i < |before| ==>
         after[i] == (if before[i].key == key then Entry(key, before[i].session.(status := status)) else before[i])
  }

  /** The answer to "switch?": yes marks the suspended session active, starts the new workflow with
      no parameters and goes where its tool results will come back; no marks it rejected and
      leaves the running workflow as it is; anything else is asked again.  A reply with words of
      both kinds is a yes. */
  lemma ConfirmationAnswers(s: State)
    requires s.pending.Some?
    ensures var p, after := s.pending.value, Confirm(s);
      if IsYes(s.message) then
        && after.pending.None? && OnlyStatus(s.history, after.history, p.key, Active)
        && after.hint == StartHint(p.intent, p.resource, p.tool) && after.collected == map[] && after.remaining == map[]
        && (EdgeFromSwitchConfirmation(after) == CreateFlowV2 ==> RouteFromTool(after) == CreateFlowV2)
      else if IsNo(s.message) then
        && after.pending.None? && OnlyStatus(s.history, after.history, p.key, Rejected)
        && after.hint == s.hint && after.collected == s.collected && after.remaining == s.remaining
      else
        after == s.(status := PassThrough) && EdgeFromSwitchConfirmation(after) == End
  {
    var p := s.pending.value;
    StatusOnly(s.history, p.key, Active);
    StatusOnly(s.history, p.key, Rejected);
    if IsYes(s.message) { AcceptedRoute(Confirm(s)); }
  }

  lemma StatusOnly(history: seq<Entry>, key: SessionKey, status: SessionStatus)
    ensures OnlyStatus(history, SetStatus(history, key, status), key, status)
  {
    StatusLength(history, key, status);
    forall i | 0 <= i < |history|
      ensures SetStatus(history, key, status)[i]
           == if history[i].key == key then Entry(key, history[i].session.(status := status)) else history[i]
    {
      StatusWritten(history, key, status, i);
    }
  }

  lemma AcceptedRoute(after: State)
    ensures EdgeFromSwitchConfirmation(after) == CreateFlowV2 ==> RouteFromTool(after) == CreateFlowV2
  {
    V2IsNotDbUser(after.hint.resource);
  }
}
