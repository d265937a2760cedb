/**
  Where each turn goes and what it leaves as the running workflow, read off what the model said, the
  running workflow and the placement check alone.
*/
module SwitchRoutes {
  import opened Wrappers
  import opened PyText
  import opened SwitchMachine
  import opened SwitchTheorems

  // ---------------------------------------------------------------- resources with a node of their own

  const FLOW_ALIASES: set<string> := {"s3", "sqs", "dynamodb", "database", "kong_gateway", "kong_route"}

  /** An alias in any case, blanks around it allowed, or one of the full names as it stands. */
  predicate HasFlow(resource: string) {
    || Lower(Strip(resource)) in FLOW_ALIASES
    || (Lower(Strip(resource)) != "database_user"
        && resource in {"s3_infrastructuretype_ref", "sqs_infrastructuretype_ref", "dynamodb_infrastructuretype_ref",
                        "kong_gateway_infrastructuretype_ref", "database_infrastructuretype_ref"})
  }

  predicate NamesDbUser(resource: string) {
    || Lower(Strip(resource)) == "database_user"
    || (resource == "database_user_infrastructuretype_ref"
        && Lower(Strip(resource)) !in FLOW_ALIASES)
  }

  lemma ResourceIff(resource: string)
    ensures IsV2(resource) <==> HasFlow(resource)
    ensures IsDbUser(resource) <==> NamesDbUser(resource)
  {
    var alias := Lower(Strip(resource));
    if alias in CANONICAL {
      AliasOf(alias, CANONICAL[alias]);
    } else {
      NoAlias(alias);
    }
  }

  lemma AliasOf(alias: string, name: string)
    requires alias in CANONICAL && name == CANONICAL[alias]
    ensures name in V2_RESOURCES <==> alias in FLOW_ALIASES
    ensures name == "database_user_infrastructuretype_ref" <==> alias == "database_user"
    ensures alias in FLOW_ALIASES || alias == "database_user"
  {
    V2Lengths(name);
  }

  lemma V2Lengths(name: string)
    ensures name in V2_RESOURCES ==> |name| != 36
  {
  }

  lemma NoAlias(alias: string)
    requires alias !in CANONICAL
    ensures alias !in FLOW_ALIASES && alias != "database_user"
  {
  }

  // ---------------------------------------------------------------- what a turn asks for

  /** Intent, resource and tool of a turn; a model that fails counts as unsupported. */
  function AskedIntent(t: Turn): Intent
    requires t.Message?
  {
    match t.detection
    case Detection(intent, _, _) => intent
    case Failed => Unsupported
  }

  function AskedResource(t: Turn): string
    requires t.Message?
  {
    match t.detection
    case Detection(_, resource, _) => resource
    case Failed => ""
  }

  /** The tool the model named, else that of the running workflow. */
  function AskedTool(s: State, t: Turn): string
    requires t.Message?
  {
    if t.detection.Detection? && t.detection.tool != "" then t.detection.tool else s.hint.tool
  }

  /** A CREATE of another resource than the one whose CREATE is running. */
  predicate Swaps(s: State, t: Turn)
    requires t.Message?
  {
    && s.hint.intent == Create && AskedIntent(t) == Create
    && AskedResource(t) != "" && AskedResource(t) != s.hint.resource
  }

  lemma AskedIsDetected(s: State, t: Turn)
    requires t.Message?
    ensures var d := SwitchTheorems.Detected(s, t);
      && d.turnIntent == AskedIntent(t) && d.turnResource == AskedResource(t) && d.hint == s.hint
      && (t.detection.Detection? ==> EffectiveTool(d) == AskedTool(s, t))
  {
  }

  // ---------------------------------------------------------------- where a turn goes

  /** On every reachable state: an attempt to swap is answered at once; a CREATE goes to
      create_flow_v2 if its resource has that flow, otherwise the user is asked when input is required
      or placement missing, otherwise a database user has its own node and everything else has its
      parameters extracted; a REFERENCE, a question and anything else go to their nodes. */
  lemma TurnGoesTo(turns: seq<Turn>, t: Turn)
    requires t.Message?
    ensures Routed(Run(turns), t).place ==
      if Swaps(Run(turns), t) then ResponseHandler
      else match AskedIntent(t)
        case Create =>
          if HasFlow(AskedResource(t)) then CreateFlowV2
          else if t.work.needsInput || t.work.missingPlacement then ResponseHandler
          else if NamesDbUser(AskedResource(t)) then DbUserManagement
          else ParameterExtraction
        case Reference => ReferenceNode
        case Qa => QaExecution
        case _ => UnsupportedExecution
  {
    RunGood(turns);
    PlaceAfter(Run(turns), t);
  }

  lemma PlaceAfter(s: State, t: Turn)
    requires Good(s) && t.Message?
    ensures Routed(s, t).place ==
      if Swaps(s, t) then ResponseHandler
      else match AskedIntent(t)
        case Create =>
          if HasFlow(AskedResource(t)) then CreateFlowV2
          else if t.work.needsInput || t.work.missingPlacement then ResponseHandler
          else if NamesDbUser(AskedResource(t)) then DbUserManagement
          else ParameterExtraction
        case Reference => ReferenceNode
        case Qa => QaExecution
        case _ => UnsupportedExecution
  {
    QuietRouted(s, t);
    AskedIsDetected(s, t);
    if !Swaps(s, t) && AskedIntent(t) == Create { CreatePlace(s, t, Routed(s, t).state); }
  }

  lemma CreatePlace(s: State, t: Turn, after: State)
    requires t.Message? && AskedIntent(t) == Create && !Swaps(s, t) && Simple(SwitchTheorems.Detected(s, t), after)
    ensures PlaceOf(after, t) ==
      if HasFlow(AskedResource(t)) then CreateFlowV2
      else if t.work.needsInput || t.work.missingPlacement then ResponseHandler
      else if NamesDbUser(AskedResource(t)) then DbUserManagement
      else ParameterExtraction
  {
    AskedIsDetected(s, t);
    ResourceIff(AskedResource(t));
    EmptyIsPlain();
  }

  // ---------------------------------------------------------------- what is running afterwards

  /** Intent, resource and tool of the hint. */
  datatype Running = Running(intent: Intent, resource: string, tool: string)

  function RunningOf(s: State): Running { Running(s.hint.intent, s.hint.resource, s.hint.tool) }

  /** On every reachable state: a question, an unsupported turn and an attempt to swap leave the
      running workflow as it is; a CREATE that names a resource and a REFERENCE with a tool run
      afterwards, and any other turn leaves nothing running. */
  lemma TurnRuns(turns: seq<Turn>, t: Turn)
    requires t.Message?
    ensures RunningOf(Step(Run(turns), t)) ==
      if AskedIntent(t) == Qa || AskedIntent(t) == Unsupported || Swaps(Run(turns), t) then RunningOf(Run(turns))
      else if AskedIntent(t) == Create && AskedResource(t) != "" then Running(Create, AskedResource(t), "")
      else if AskedIntent(t) == Reference && AskedTool(Run(turns), t) != ""
      then Running(Reference, AskedResource(t), AskedTool(Run(turns), t))
      else Running(NoIntent, "", "")
  {
    TurnFollowsRule(turns, t);
    AskedIsDetected(Run(turns), t);
  }

  /** The turn goes on with what is running. */
  predicate Continues(s: State, t: Turn)
    requires t.Message?
  {
    s.hint.intent != NoIntent && Running(AskedIntent(t), AskedResource(t), AskedTool(s, t)) == RunningOf(s)
  }

  /** The turn starts a workflow anew, or leaves none. */
  predicate Restarts(s: State, t: Turn)
    requires t.Message?
  {
    && AskedIntent(t) != Qa && AskedIntent(t) != Unsupported
    && !Swaps(s, t) && !Continues(s, t)
  }

  /** The hint of a workflow that starts; none without a resource or a tool. */
  function FreshHint(intent: Intent, resource: string, tool: string): Hint {
    if intent == Create && resource != "" then Hint(Create, resource, "parameter_collection", "")
    else if intent == Reference && tool != "" then Hint(Reference, resource, "parameter_collection", tool)
    else Hint(NoIntent, "", "", "")
  }

  /** On every reachable state, every field when the switch nodes are done: a refused swap is marked as
      blocked and unsupported, what the model said is kept, a restart writes a fresh hint and the tool
      of a REFERENCE, and nothing else changes. */
  lemma TurnLeaves(turns: seq<Turn>, t: Turn)
    requires t.Message?
    ensures var s := Run(turns);
      var named := if t.detection.Detection? then t.detection.tool else s.tool;
      Routed(s, t).state ==
        s.(message := t.message, turnIntent := if Swaps(s, t) then Unsupported else AskedIntent(t),
           turnResource := AskedResource(t), slotTool := if t.detection.Detection? then t.detection.tool else "",
           status := if Swaps(s, t) then Blocked else PassThrough,
           hint := if Restarts(s, t) then FreshHint(AskedIntent(t), AskedResource(t), AskedTool(s, t)) else s.hint,
           tool := if Restarts(s, t) && AskedIntent(t) == Reference && AskedTool(s, t) != "" then AskedTool(s, t)
                   else named)
  {
    RunGood(turns);
    var s := Run(turns);
    var d := SwitchTheorems.Detected(s, t);
    AskedIsDetected(s, t);
    QuietIsSimple(d, t.number, t.now);
    SimpleLeaves(s, t, d);
  }

  lemma SimpleLeaves(s: State, t: Turn, d: State)
    requires t.Message? && Good(s) && d == SwitchTheorems.Detected(s, t)
    ensures var named := if t.detection.Detection? then t.detection.tool else s.tool;
      SimpleSwitch(d) ==
        s.(message := t.message, turnIntent := if Swaps(s, t) then Unsupported else AskedIntent(t),
           turnResource := AskedResource(t), slotTool := if t.detection.Detection? then t.detection.tool else "",
           status := if Swaps(s, t) then Blocked else PassThrough,
           hint := if Restarts(s, t) then FreshHint(AskedIntent(t), AskedResource(t), AskedTool(s, t)) else s.hint,
           tool := if Restarts(s, t) && AskedIntent(t) == Reference && AskedTool(s, t) != "" then AskedTool(s, t)
                   else named)
  {
    AskedIsDetected(s, t);
  }

  /** Clearing the chat leaves nothing running and no parameters, so any CREATE can follow. */
  lemma ClearedIsFree(turns: seq<Turn>, t: Turn)
    requires t.Message?
    ensures var s := Run(turns + [Cleared]);
      RunningOf(s) == Running(NoIntent, "", "") && s.collected == map[] && s.remaining == map[] && !Swaps(s, t)
  {
    assert (turns + [Cleared])[..|turns|] == turns;
  }

  /** A message the guardrail stops is kept as the latest message; workflow and parameters stay. */
  lemma StoppedMessageLeaves(turns: seq<Turn>, message: string)
    ensures Run(turns + [GuardrailBlocked(message)])
         == Run(turns).(message := message, turnIntent := NoIntent, turnResource := "", slotTool := "")
  {
    assert (turns + [GuardrailBlocked(message)])[..|turns|] == turns;
  }

  // ---------------------------------------------------------------- tool results

  /** Tool results go by the running resource alone. */
  lemma ToolResultsGoTo(s: State)
    ensures RouteFromTool(s) ==
      if NamesDbUser(s.hint.resource) then DbUserManagement
      else if HasFlow(s.hint.resource) then CreateFlowV2 else ReferenceNode
  {
    ResourceIff(s.hint.resource);
  }

  // ---------------------------------------------------------------- the switch nodes, on any state

  /** Behind the confirmation node: an open question ends the turn, otherwise the workflow that runs
      now goes on. */
  lemma ConfirmationGoesTo(s: State)
    ensures EdgeFromSwitchConfirmation(s) ==
      if s.pending.Some? then End
      else if s.hint.intent == Create then (if HasFlow(s.hint.resource) then CreateFlowV2 else PlacementValidator)
      else if s.hint.intent == Reference then ReferenceNode
      else End
  {
    ResourceIff(s.hint.resource);
  }

  /** Behind the placement check: the resource the turn names, or else the running one, decides, once
      input and placement are there, unless it has create_flow_v2 for itself. */
  lemma PlacementGoesTo(s: State, needsInput: bool, missing: bool, resource: string)
    requires resource == if s.turnResource == "" then s.hint.resource else s.turnResource
    ensures EdgeFromPlacement(s, needsInput, missing) ==
      if HasFlow(resource) then CreateFlowV2
      else if needsInput || missing then ResponseHandler
      else if NamesDbUser(resource) then DbUserManagement
      else ParameterExtraction
  {
    ResourceIff(resource);
  }

  /** Behind switch_intent_node: resumed and refused turns and a question just asked are answered, an
      open question goes to the confirmation node, and otherwise the intent decides. */
  lemma SwitchGoesTo(s: State)
    ensures EdgeFromSwitchIntent(s) ==
      if s.status == Resuming || s.status == Blocked || (s.pending.Some? && s.status == SwitchStatus.Detected)
      then ResponseHandler
      else if s.pending.Some? then SwitchConfirmation
      else if s.turnIntent == Create then (if HasFlow(s.turnResource) then CreateFlowV2 else PlacementValidator)
      else if s.turnIntent == Reference then ReferenceNode
      else if s.turnIntent == Qa then QaExecution
      else UnsupportedExecution
  {
    ResourceIff(s.turnResource);
  }

  /** The session is what the turn asks for: active still or waiting for an answer, and a CREATE of the
      resource the turn names, or a REFERENCE with its tool. */
  predicate AskedFor(s: State, session: Session) {
    && (session.status == Active || session.status == PendingConfirmation)
    && (if s.turnIntent == Create then
          session.intent == Create && s.turnResource != "" && session.resource == s.turnResource
        else
          session.intent == Reference && EffectiveTool(s) != "" && session.tool == EffectiveTool(s))
  }

  /** Session i of the history is asked for, and no other is. */
  ghost predicate OnlyAskedFor(s: State, i: int) {
    && 0 <= i < |s.history| && AskedFor(s, s.history[i].session)
    && forall j :: 0 <= j < |s.history| && j != i ==> !AskedFor(s, s.history[j].session)
  }

  /** A turn that leaves the running workflow resumes exactly the one session it asks for. */
  lemma ResumesWhatIsAskedFor(s: State, number: Option<int>, now: int)
    requires (s.turnIntent == Create || s.turnIntent == Reference) && s.pending.None? && !s.awaiting
    requires s.hint.intent != NoIntent && IsSwitch(s, EffectiveTool(s))
    ensures var after := SwitchIntent(s, number, now);
      && (after.status == Resuming <==> exists i :: OnlyAskedFor(s, i))
      && forall i :: OnlyAskedFor(s, i) ==>
           var session := s.history[i].session;
           && after.hint == Hint(session.intent, session.resource, session.phase, session.tool)
           && after.tool == session.tool && after.collected == session.collected
           && after.remaining == session.remaining
  {
    ResumesIff(s, number, now);
    forall i ensures OnlyMatch(s.history, s.turnIntent, s.turnResource, EffectiveTool(s), i) <==> OnlyAskedFor(s, i) {
      MatchesWhatIsAskedFor(s, i);
    }
  }

  lemma MatchesWhatIsAskedFor(s: State, i: int)
    requires s.turnIntent == Create || s.turnIntent == Reference
    ensures OnlyMatch(s.history, s.turnIntent, s.turnResource, EffectiveTool(s), i) <==> OnlyAskedFor(s, i)
  {
    assert forall j :: 0 <= j < |s.history| ==>
      (IsMatch(s.history[j].session, s.turnIntent, s.turnResource, EffectiveTool(s))
       <==> AskedFor(s, s.history[j].session));
  }

  /** A session is among those found for the turn in its place when it is asked for. */
  lemma {:induction false} FoundInPlace(a: seq<Entry>, e: Entry, b: seq<Entry>, s: State)
    requires s.turnIntent == Create || s.turnIntent == Reference
    ensures var tool := EffectiveTool(s);
      && Matches([], s.turnIntent, s.turnResource, tool) == []
      && Matches(a + [e] + b, s.turnIntent, s.turnResource, tool)
         == Matches(a, s.turnIntent, s.turnResource, tool) + (if AskedFor(s, e.session) then [e] else [])
            + Matches(b, s.turnIntent, s.turnResource, tool)
    decreases |b|
  {
    var whole := a + [e] + b;
    if b == [] {
      assert whole[..|whole| - 1] == a;
    } else {
      assert whole[..|whole| - 1] == a + [e] + b[..|b| - 1];
      FoundInPlace(a, e, b[..|b| - 1], s);
    }
  }

  /** When a REFERENCE turn that leaves the running workflow asks for several sessions, the user is asked
      which of those found it is, and nothing else changes. */
  lemma AsksWhich(s: State, number: Option<int>, now: int, i: nat, j: nat)
    requires s.turnIntent == Reference && s.pending.None? && !s.awaiting
    requires s.hint.intent != NoIntent && IsSwitch(s, EffectiveTool(s))
    requires i < j < |s.history| && AskedFor(s, s.history[i].session) && AskedFor(s, s.history[j].session)
    ensures SwitchIntent(s, number, now)
         == s.(matches := Matches(s.history, Reference, s.turnResource, EffectiveTool(s)), awaiting := true,
               status := Disambiguation)
  {
    SeveralFound(s, i, j);
  }

  lemma SeveralFound(s: State, i: nat, j: nat)
    requires s.turnIntent == Create || s.turnIntent == Reference
    requires i < j < |s.history| && AskedFor(s, s.history[i].session) && AskedFor(s, s.history[j].session)
    ensures |Matches(s.history, s.turnIntent, s.turnResource, EffectiveTool(s))| > 1
  {
    var before, between, behind := s.history[..i], s.history[i + 1..j], s.history[j + 1..];
    var tail := between + [s.history[j]] + behind;
    assert s.history == before + [s.history[i]] + tail;
    FoundInPlace(before, s.history[i], tail, s);
    FoundInPlace(between, s.history[j], behind, s);
  }

  /** A suspended CREATE of a resource other than this one: active still, or waiting for an answer. */
  ghost predicate SuspendsOther(history: seq<Entry>, resource: string) {
    exists i :: 0 <= i < |history| && history[i].session.intent == Create && history[i].session.resource != resource
                && (history[i].session.status == Active || history[i].session.status == PendingConfirmation)
  }

  /** With no question open a turn is refused exactly when it is a CREATE that names a resource, does not
      continue what is running and resumes nothing, while a CREATE of another resource is running or
      suspended. */
  lemma RefusedIff(s: State, number: Option<int>, now: int)
    requires s.pending.None? && !s.awaiting
    ensures SwitchIntent(s, number, now).status == Blocked
       <==> && s.turnIntent == Create && s.turnResource != "" && s.hint.intent != NoIntent
            && !(s.hint.intent == Create && s.turnResource == s.hint.resource && EffectiveTool(s) == s.hint.tool)
            && SwitchIntent(s, number, now).status != Resuming
            && ((s.hint.intent == Create && s.turnResource != s.hint.resource)
                || SuspendsOther(s.history, s.turnResource))
  {
    var found := Matches(s.history, s.turnIntent, s.turnResource, EffectiveTool(s));
    HoldsIff(s.history, s.turnResource);
    if s.turnIntent == Create && s.hint.intent != NoIntent && IsSwitch(s, EffectiveTool(s)) {
      CreateInTheMiddle(s, EffectiveTool(s), number, now, found);
    }
  }

  lemma HoldsIff(history: seq<Entry>, resource: string)
    ensures HoldsOtherCreate(history, resource) <==> SuspendsOther(history, resource)
  {
  }

  lemma CreateInTheMiddle(s: State, tool: string, number: Option<int>, now: int, found: seq<Entry>)
    requires s.turnIntent == Create && !s.awaiting
    requires found == Matches(s.history, s.turnIntent, s.turnResource, tool)
    ensures var after := Switch(s, tool, false, number, now);
      && (after.status == Resuming <==> |found| == 1)
      && (after.status == Blocked <==>
            && |found| != 1 && s.turnResource != ""
            && ((s.hint.intent == Create && s.turnResource != s.hint.resource)
                || HoldsOtherCreate(s.history, s.turnResource)))
  {
  }

  /** A question that is neither answered nor asked again is dropped: its session is rejected, whatever
      the turn goes on to do. */
  lemma UnansweredIsRejected(s: State, number: Option<int>, now: int)
    requires s.pending.Some? && (s.turnIntent == Create || s.turnIntent == Reference)
    requires !IsYes(s.message) && !IsNo(s.message)
    ensures OnlyStatus(s.history, SwitchIntent(s, number, now).history, s.pending.value.key, Rejected)
  {
    var r := s.(history := SetStatus(s.history, s.pending.value.key, Rejected));
    StatusOnly(s.history, s.pending.value.key, Rejected);
    RejectedGoesOn(s, r, EffectiveTool(r), number, now);
    MiddleKeepsHistory(r, EffectiveTool(r), number, now);
  }

  lemma RejectedGoesOn(s: State, r: State, tool: string, number: Option<int>, now: int)
    requires s.pending.Some? && (s.turnIntent == Create || s.turnIntent == Reference)
    requires !IsYes(s.message) && !IsNo(s.message)
    requires r == s.(history := SetStatus(s.history, s.pending.value.key, Rejected)) && tool == EffectiveTool(r)
    ensures SwitchIntent(s, number, now) == Start(r, tool, true)
         || SwitchIntent(s, number, now) == r.(status := PassThrough)
         || SwitchIntent(s, number, now) == Switch(r, tool, true, number, now)
  {
  }

  lemma MiddleKeepsHistory(r: State, tool: string, number: Option<int>, now: int)
    ensures Switch(r, tool, true, number, now).history == r.history && Start(r, tool, true).history == r.history
  {
  }

  /** With a question open and nothing running, a turn that does not ask for what is pending starts what
      it names; the question stays open when the message says yes or no and is closed otherwise. */
  lemma StartsBesideTheQuestion(s: State, number: Option<int>, now: int)
    requires s.pending.Some? && (s.turnIntent == Create || s.turnIntent == Reference) && s.hint.intent == NoIntent
    requires !(s.turnIntent == s.pending.value.intent && s.turnResource == s.pending.value.resource
               && EffectiveTool(s) == s.pending.value.tool)
    ensures var after := SwitchIntent(s, number, now);
      && after.pending == (if IsYes(s.message) || IsNo(s.message) then s.pending else None)
      && after.hint == FreshHint(s.turnIntent, s.turnResource, EffectiveTool(s)) && after.status == PassThrough
      && after.collected == s.collected && after.remaining == s.remaining
  {
  }

  /** Asking again for what is pending, with a yes or a no in the message, is taken as agreement. */
  lemma AskingAgainAccepts(s: State, number: Option<int>, now: int)
    requires s.pending.Some? && (s.turnIntent == Create || s.turnIntent == Reference)
    requires IsYes(s.message) || IsNo(s.message)
    requires s.turnIntent == s.pending.value.intent && s.turnResource == s.pending.value.resource
    requires EffectiveTool(s) == s.pending.value.tool
    ensures var p, after := s.pending.value, SwitchIntent(s, number, now);
      && after.pending.None? && OnlyStatus(s.history, after.history, p.key, Active)
      && RunningOf(after) == (if p.intent == Reference && p.tool != "" then Running(Reference, p.resource, p.tool)
                              else if p.intent == Create && p.resource != "" then Running(Create, p.resource, "")
                              else Running(NoIntent, "", ""))
      && after.tool == p.tool && after.collected == map[] && after.remaining == map[] && !after.prompted
  {
    StatusOnly(s.history, s.pending.value.key, Active);
  }

  /** The reply to "which of these do you want to resume?": one of the words for a fresh start closes
      the question, a number in range resumes that session with all it had, anything else asks again. */
  lemma SelectionAnswers(s: State, number: Option<int>, now: int)
    requires s.awaiting && s.pending.None? && (s.turnIntent == Create || s.turnIntent == Reference)
    requires s.hint.intent != NoIntent && IsSwitch(s, EffectiveTool(s))
    ensures var after := SwitchIntent(s, number, now);
      after.history == s.history
      && if Strip(Lower(s.message)) in {"new", "create new", "start new", "fresh"} then
           !after.awaiting && after.matches == [] && after.status == PassThrough && after.hint == s.hint
           && after.collected == s.collected && after.remaining == s.remaining
         else if number.Some? && 1 <= number.value <= |s.matches| then
           var session := s.matches[number.value - 1].session;
           && !after.awaiting && after.matches == [] && after.status == Resuming
           && after.hint == Hint(session.intent, session.resource, session.phase, session.tool)
           && after.collected == session.collected && after.remaining == session.remaining && after.tool == session.tool
         else after == s.(status := Disambiguation)
  {
    IsMiddle(s, EffectiveTool(s), number, now);
    FreshWords(Reply(s.message));
    AwaitingSelects(s, EffectiveTool(s), number, now);
  }

  lemma FreshWords(reply: string)
    ensures reply in FRESH_WORDS <==> reply in {"new", "create new", "start new", "fresh"}
  {
  }

  lemma AwaitingSelects(s: State, tool: string, number: Option<int>, now: int)
    requires s.awaiting
    ensures Switch(s, tool, false, number, now) == Select(s, number)
  {
  }
}
