/**
  The multi-turn switch machine of the infrastructure chat: init_node.py, switch_intent_node.py,
  switch_confirmation_node.py and the routers of infra_chat_graph.py.

  None and "" are not told apart: every test the code makes is on their truth value.
*/
module SwitchMachine {
  import opened Wrappers
  import opened PyText

  datatype Intent = NoIntent | Create | Reference | Qa | Unsupported

  type Params = map<string, string>

  /** state_hint: what is running.  The empty hint has no intent, resource or tool. */
  datatype Hint = Hint(intent: Intent, resource: string, phase: string, tool: string)

  datatype SessionStatus = PendingConfirmation | Active | Rejected | Completed

  datatype SessionKey = SessionKey(intent: Intent, resource: string, timestamp: int)

  datatype Session = Session(intent: Intent, resource: string, phase: string, collected: Params, remaining: Params,
                             tool: string, status: SessionStatus)

  /** One item of session_state_history, in insertion order. */
  datatype Entry = Entry(key: SessionKey, session: Session)

  datatype Pending = Pending(intent: Intent, resource: string, tool: string, key: SessionKey,
                             fromIntent: Intent, fromResource: string, fromTool: string)

  datatype SwitchStatus = NotRun | PassThrough | Detected | Resuming | Blocked | Disambiguation

  datatype State = State(message: string, turnIntent: Intent, turnResource: string, slotTool: string,
                         history: seq<Entry>, hint: Hint, collected: Params, remaining: Params,
                         pending: Option<Pending>, status: SwitchStatus, counter: int, tool: string,
                         matches: seq<Entry>, awaiting: bool, prompted: bool)

  const EMPTY_HINT := Hint(NoIntent, "", "", "")
  const COLLECTING := "parameter_collection"

  /** Both tests for an unfinished workflow are switched off in the script. */
  const CREATE_INCOMPLETE := false

  /** A thread before its first turn. */
  const FRESH := State("", NoIntent, "", "", [], EMPTY_HINT, map[], map[], None, NotRun, 0, "", [], false, false)

  // ---------------------------------------------------------------- replies

  const YES_WORDS: set<string> := {"yes", "y", "ok", "okay", "sure", "confirm", "switch"}
  const NO_WORDS: set<string> := {"no", "n", "cancel", "dont"}
  const FRESH_WORDS: set<string> := {"new", "create new", "start new", "fresh"}

  /** str.split() gathered as a set; `word` is the word being read. */
  function WordsFrom(text: string, word: string): set<string> {
    if text == "" then (if word == "" then {} else {word})
    else if IsBlank(text[0]) then (if word == "" then {} else {word}) + WordsFrom(text[1..], "")
    else WordsFrom(text[1..], word + [text[0]])
  }

  function Words(text: string): set<string> { WordsFrom(text, "") }

  predicate StartsAt(text: string, phrase: string, i: int) {
    0 <= i <= |text| - |phrase| && text[i..i + |phrase|] == phrase
  }

  predicate Mentions(text: string, phrase: string) { exists i :: 0 <= i <= |text| && StartsAt(text, phrase, i) }

  function Reply(message: string): string { Strip(Lower(message)) }

  predicate IsYes(message: string) {
    Words(Reply(message)) * YES_WORDS != {} || Mentions(Reply(message), "go ahead")
  }

  predicate IsNo(message: string) {
    Words(Reply(message)) * NO_WORDS != {} || Mentions(Reply(message), "don't")
  }

  // ---------------------------------------------------------------- resources

  const CANONICAL: map<string, string> :=
    map["s3" := "s3_infrastructuretype_ref", "sqs" := "sqs_infrastructuretype_ref",
        "dynamodb" := "dynamodb_infrastructuretype_ref", "database" := "database_infrastructuretype_ref",
        "database_user" := "database_user_infrastructuretype_ref",
        "kong_gateway" := "kong_gateway_infrastructuretype_ref",
        "kong_route" := "kong_gateway_infrastructuretype_ref"]

  const V2_RESOURCES: set<string> :=
    {"s3_infrastructuretype_ref", "sqs_infrastructuretype_ref", "dynamodb_infrastructuretype_ref",
     "kong_gateway_infrastructuretype_ref", "database_infrastructuretype_ref"}

  /** An alias is recognised whatever its case and surrounding blanks; anything else stays as it is. */
  function Normalize(resource: string): string {
    if Lower(Strip(resource)) in CANONICAL then CANONICAL[Lower(Strip(resource))] else resource
  }

  predicate IsV2(resource: string) { Normalize(resource) in V2_RESOURCES }

  predicate IsDbUser(resource: string) { Normalize(resource) == "database_user_infrastructuretype_ref" }

  // ---------------------------------------------------------------- init_node and the intent detector

  function Init(s: State, message: string): State {
    s.(message := message, turnIntent := NoIntent, turnResource := "", slotTool := "")
  }

  /** What the language model says, or that it failed. */
  datatype Detection = Detection(intent: Intent, resource: string, tool: string) | Failed

  function Detect(s: State, d: Detection): State {
    match d
    case Detection(intent, resource, tool) =>
      s.(turnIntent := intent, turnResource := resource, slotTool := tool, tool := tool)
    case Failed => s.(turnIntent := Unsupported, turnResource := "", slotTool := "")
  }

  // ---------------------------------------------------------------- switch_intent_node

  function SetStatus(history: seq<Entry>, key: SessionKey, status: SessionStatus): seq<Entry> {
    if history == [] then []
    else
      [if history[0].key == key then Entry(key, history[0].session.(status := status)) else history[0]]
      + SetStatus(history[1..], key, status)
  }

  /** A tool the model named, else the one already in the state, else the running one. */
  function EffectiveTool(s: State): string {
    if s.slotTool != "" then s.slotTool else if s.tool != "" then s.tool else s.hint.tool
  }

  function StartHint(intent: Intent, resource: string, tool: string): Hint {
    if intent == Reference && tool != "" then Hint(Reference, resource, COLLECTING, tool)
    else if intent == Create && resource != "" then Hint(Create, resource, COLLECTING, "")
    else EMPTY_HINT
  }

  function RestoredHint(session: Session): Hint {
    Hint(session.intent, session.resource, session.phase, session.tool)
  }

  function Resume(s: State, session: Session): State {
    s.(hint := RestoredHint(session), collected := session.collected, remaining := session.remaining,
       status := Resuming, tool := session.tool)
  }

  predicate Resumable(session: Session) { session.status == Active || session.status == PendingConfirmation }

  /** A suspended session the turn asks for: by resource for CREATE, by tool for REFERENCE. */
  predicate IsMatch(session: Session, intent: Intent, resource: string, tool: string) {
    && Resumable(session)
    && ((intent == Create && session.intent == Create && resource != "" && resource == session.resource)
        || (intent == Reference && session.intent == Reference && tool != "" && tool == session.tool))
  }

  function Matches(history: seq<Entry>, intent: Intent, resource: string, tool: string): seq<Entry> {
    if history == [] then []
    else
      Matches(history[..|history| - 1], intent, resource, tool)
      + (if IsMatch(history[|history| - 1].session, intent, resource, tool) then [history[|history| - 1]] else [])
  }

  /** A suspended CREATE of another resource. */
  predicate HoldsOtherCreate(history: seq<Entry>, resource: string) {
    exists i :: 0 <= i < |history| && history[i].session.intent == Create && Resumable(history[i].session)
                && history[i].session.resource != resource
  }

  function Accept(s: State, p: Pending): State {
    s.(pending := None, history := SetStatus(s.history, p.key, Active), hint := StartHint(p.intent, p.resource, p.tool),
       status := PassThrough, tool := p.tool, collected := map[], remaining := map[], prompted := false)
  }

  /** The reply to "which of these do you want to resume?". */
  function Select(s: State, number: Option<int>): State {
    if Reply(s.message) in FRESH_WORDS then s.(awaiting := false, matches := [], status := PassThrough)
    else if number.Some? && 0 <= number.value - 1 < |s.matches| then
      Resume(s, s.matches[number.value - 1].session).(awaiting := false, matches := [])
    else s.(status := Disambiguation)
  }

  function SuspendKey(s: State, now: int): SessionKey { SessionKey(s.hint.intent, s.hint.resource, now) }

  /** Ask before leaving an unfinished workflow. */
  function Suspend(s: State, tool: string, now: int): State {
    var session := Session(s.hint.intent, s.hint.resource, s.hint.phase, s.collected, s.remaining, s.hint.tool,
                           PendingConfirmation);
    s.(history := s.history + [Entry(SuspendKey(s, now), session)],
       pending := Some(Pending(s.turnIntent, s.turnResource, tool, SuspendKey(s, now), s.hint.intent, s.hint.resource,
                               s.hint.tool)),
       status := Detected, counter := s.counter + 1)
  }

  /** The last part of the node: start the workflow the turn asks for; `pending` is what is left
      of the question asked before. */
  function Start(s: State, tool: string, dropPending: bool): State {
    var s := if dropPending then s.(pending := None) else s;
    s.(status := PassThrough, hint := StartHint(s.turnIntent, s.turnResource, tool),
       tool := if s.turnIntent == Reference && tool != "" then tool else s.tool)
  }

  predicate IsSwitch(s: State, tool: string) {
    s.turnIntent != s.hint.intent || s.turnResource != s.hint.resource || tool != s.hint.tool
  }

  /** The middle part, with a workflow running that the turn does not simply continue. */
  function Switch(s: State, tool: string, dropPending: bool, number: Option<int>, now: int): State {
    var found := if s.awaiting then [] else Matches(s.history, s.turnIntent, s.turnResource, tool);
    if s.turnIntent == Create && |found| == 1 then Resume(s, found[0].session)
    else if s.turnIntent == Reference && |found| == 1 then Resume(s, found[0].session)
    else if s.turnIntent == Reference && |found| > 1 then
      s.(matches := found, awaiting := true, status := Disambiguation)
    else if s.awaiting then Select(s, number)
    else if s.turnIntent == Create && s.turnResource != ""
            && ((s.hint.intent == Create && s.turnResource != s.hint.resource)
                || HoldsOtherCreate(s.history, s.turnResource)) then
      s.(status := Blocked, turnIntent := Unsupported)
    else if CREATE_INCOMPLETE then Suspend(s, tool, now)
    else Start(s, tool, dropPending)
  }

  /** The whole node; `number` is the message read as a number. */
  function SwitchIntent(s: State, number: Option<int>, now: int): State {
    if s.turnIntent == Qa || s.turnIntent == Unsupported then s.(status := PassThrough)
    else
      var drop := s.pending.Some? && !IsYes(s.message) && !IsNo(s.message);
      var s := if drop then s.(history := SetStatus(s.history, s.pending.value.key, Rejected)) else s;
      var tool := EffectiveTool(s);
      if !drop && s.pending.Some? && s.turnIntent == s.pending.value.intent
         && s.turnResource == s.pending.value.resource && tool == s.pending.value.tool then Accept(s, s.pending.value)
      else if s.hint.intent == NoIntent then Start(s, tool, drop)
      else if !IsSwitch(s, tool) then s.(status := PassThrough)
      else Switch(s, tool, drop, number, now)
  }

  // ---------------------------------------------------------------- switch_confirmation_node

  function Confirm(s: State): State {
    if s.pending.None? then s.(status := PassThrough)
    else if IsYes(s.message) then Accept(s, s.pending.value)
    else if IsNo(s.message) then
      s.(history := SetStatus(s.history, s.pending.value.key, Rejected), pending := None, status := PassThrough)
    else s.(status := PassThrough)
  }

  // ---------------------------------------------------------------- the routers

  datatype Place = ResponseHandler | SwitchConfirmation | PlacementValidator | CreateFlowV2 | DbUserManagement
                 | ReferenceNode | QaExecution | UnsupportedExecution | ParameterExtraction | End

  function EdgeFromSwitchIntent(s: State): Place {
    if s.status == Resuming || s.status == Blocked then ResponseHandler
    else if s.pending.Some? && s.status == Detected then ResponseHandler
    else if s.pending.Some? then SwitchConfirmation
    else match s.turnIntent
      case Create => if IsV2(s.turnResource) then CreateFlowV2 else PlacementValidator
      case Reference => ReferenceNode
      case Qa => QaExecution
      case _ => UnsupportedExecution
  }

  function EdgeFromSwitchConfirmation(s: State): Place {
    if s.pending.Some? then End
    else match s.hint.intent
      case Create => if IsV2(s.hint.resource) then CreateFlowV2 else PlacementValidator
      case Reference => ReferenceNode
      case _ => End
  }

  function EdgeFromPlacement(s: State, needsInput: bool, missing: bool): Place {
    var resource := if s.turnResource != "" then s.turnResource else s.hint.resource;
    if IsV2(resource) then CreateFlowV2
    else if needsInput || missing then ResponseHandler
    else if IsDbUser(resource) then DbUserManagement
    else ParameterExtraction
  }

  function RouteFromTool(s: State): Place {
    if IsDbUser(s.hint.resource) then DbUserManagement
    else if IsV2(s.hint.resource) then CreateFlowV2
    else ReferenceNode
  }

  // ---------------------------------------------------------------- whole turns

  /** What the nodes of a workflow may change besides messages: the collected and remaining
      parameters, the phase of the hint, and whether the user was asked for parameters. */
  datatype Work = Work(collected: Params, remaining: Params, phase: string, prompted: bool,
                       needsInput: bool, missingPlacement: bool)

  datatype Turn =
    | Cleared
    | GuardrailBlocked(message: string)
    | Message(message: string, detection: Detection, number: Option<int>, now: int, work: Work)

  datatype Outcome = Outcome(state: State, place: Place)

  /** What a node at `place` leaves behind; reference_node and the handler behind it answer without
      touching the parameters. */
  function Worked(s: State, place: Place, w: Work): State {
    var after := s.(hint := s.hint.(phase := w.phase), prompted := w.prompted);
    if place == ReferenceNode then after else after.(collected := w.collected, remaining := w.remaining)
  }

  /** The state when the switch nodes are done and the node the turn goes on to. */
  function Routed(s: State, t: Turn): Outcome
    requires t.Message?
  {
    var after := SwitchIntent(Detect(Init(s, t.message), t.detection), t.number, t.now);
    var place := EdgeFromSwitchIntent(after);
    var o := if place == SwitchConfirmation then Outcome(Confirm(after), EdgeFromSwitchConfirmation(Confirm(after)))
             else Outcome(after, place);
    if o.place == PlacementValidator then
      Outcome(o.state, EdgeFromPlacement(o.state, t.work.needsInput, t.work.missingPlacement))
    else o
  }

  predicate IsWorkflow(p: Place) {
    p == CreateFlowV2 || p == DbUserManagement || p == ReferenceNode || p == ParameterExtraction
  }

  /** The state a turn leaves behind; only workflow nodes work. */
  function Step(s: State, t: Turn): State {
    match t
    case Cleared => s.(hint := EMPTY_HINT, collected := map[], remaining := map[])
    case GuardrailBlocked(message) => Init(s, message)
    case Message(_, _, _, _, work) =>
      var o := Routed(s, t);
      if IsWorkflow(o.place) then Worked(o.state, o.place, work) else o.state
  }

  function Run(turns: seq<Turn>): State {
    if turns == [] then FRESH else Step(Run(turns[..|turns| - 1]), turns[|turns| - 1])
  }

  // ---------------------------------------------------------------- the nodes, on the state in place

  class ChatThread {
    var state: State

    constructor ()
      ensures state == FRESH
    {
      state := FRESH;
    }

    /** session_state_history[key]["session_status"] = status */
    method WriteStatus(key: SessionKey, status: SessionStatus)
      modifies this
      ensures state == old(state).(history := SetStatus(old(state).history, key, status))
    {
      var written: seq<Entry> := [];
      for i := 0 to |state.history|
        invariant state == old(state) && i <= |state.history|
        invariant written + SetStatus(state.history[i..], key, status) == SetStatus(state.history, key, status)
      {
        var entry := state.history[i];
        if entry.key == key { entry := Entry(key, entry.session.(status := status)); }
        assert state.history[i..][1..] == state.history[i + 1..];
        ghost var rest := SetStatus(state.history[i + 1..], key, status);
        assert written + ([entry] + rest) == (written + [entry]) + rest;
        written := written + [entry];
      }
      assert state.history[|state.history|..] == [];
      state := state.(history := written);
    }

    /** The loop that looks for suspended sessions to resume. */
    method FindMatches(tool: string) returns (found: seq<Entry>)
      ensures found == Matches(state.history, state.turnIntent, state.turnResource, tool)
    {
      found := [];
      for i := 0 to |state.history|
        invariant found == Matches(state.history[..i], state.turnIntent, state.turnResource, tool)
      {
        assert state.history[..i + 1][..i] == state.history[..i];
        if IsMatch(state.history[i].session, state.turnIntent, state.turnResource, tool) {
          found := found + [state.history[i]];
        }
      }
      assert state.history[..|state.history|] == state.history;
    }

    /** The loop that looks for a suspended CREATE of another resource. */
    method FindOtherCreate() returns (found: bool)
      ensures found <==> HoldsOtherCreate(state.history, state.turnResource)
    {
      for i := 0 to |state.history|
        invariant !HoldsOtherCreate(state.history[..i], state.turnResource)
      {
        var session := state.history[i].session;
        if session.intent == Create && Resumable(session) && state.turnResource != session.resource { return true; }
      }
      assert state.history[..|state.history|] == state.history;
      return false;
    }

    method AcceptPending(p: Pending)
      modifies this
      ensures state == Accept(old(state), p)
    {
      WriteStatus(p.key, Active);
      var hint := EMPTY_HINT;
      if p.intent == Reference && p.tool != "" {
        hint := Hint(Reference, p.resource, COLLECTING, p.tool);
      } else if p.intent == Create && p.resource != "" {
        hint := Hint(Create, p.resource, COLLECTING, "");
      }
      state := state.(pending := None, hint := hint, status := PassThrough, tool := p.tool, collected := map[],
                      remaining := map[], prompted := false);
    }

    method StartWorkflow(tool: string, dropPending: bool)
      modifies this
      ensures state == Start(old(state), tool, dropPending)
    {
      if dropPending { state := state.(pending := None); }
      if state.turnIntent == Reference && tool != "" {
        state := state.(status := PassThrough, tool := tool,
                        hint := Hint(Reference, state.turnResource, COLLECTING, tool));
      } else if state.turnIntent == Create && state.turnResource != "" {
        state := state.(status := PassThrough, hint := Hint(Create, state.turnResource, COLLECTING, ""));
      } else {
        state := state.(status := PassThrough, hint := EMPTY_HINT);
      }
    }

    method SwitchWorkflow(tool: string, dropPending: bool, number: Option<int>, now: int)
      modifies this
      ensures state == Switch(old(state), tool, dropPending, number, now)
    {
      if (state.turnIntent == Create || state.turnIntent == Reference) && !state.awaiting {
        var found := FindMatches(tool);
        if |found| == 1 {
          state := Resume(state, found[0].session);
          return;
        }
        if state.turnIntent == Reference && |found| > 1 {
          state := state.(matches := found, awaiting := true, status := Disambiguation);
          return;
        }
      }
      if state.awaiting {
        state := Select(state, number);
        return;
      }
      if state.turnIntent == Create && state.turnResource != "" {
        var other := FindOtherCreate();
        if (state.hint.intent == Create && state.turnResource != state.hint.resource) || other {
          state := state.(status := Blocked, turnIntent := Unsupported);
          return;
        }
      }
      StartWorkflow(tool, dropPending);
    }

    method SwitchIntentNode(number: Option<int>, now: int)
      modifies this
      ensures state == SwitchIntent(old(state), number, now)
    {
      if state.turnIntent == Qa || state.turnIntent == Unsupported {
        state := state.(status := PassThrough);
        return;
      }
      var drop := state.pending.Some? && !IsYes(state.message) && !IsNo(state.message);
      if drop { WriteStatus(state.pending.value.key, Rejected); }
      var tool := EffectiveTool(state);
      if !drop && state.pending.Some? {
        var p := state.pending.value;
        if state.turnIntent == p.intent && state.turnResource == p.resource && tool == p.tool {
          AcceptPending(p);
          return;
        }
      }
      if state.hint.intent != NoIntent {
        if !IsSwitch(state, tool) {
          state := state.(status := PassThrough);
          return;
        }
        SwitchWorkflow(tool, drop, number, now);
      } else {
        StartWorkflow(tool, drop);
      }
    }

    method SwitchConfirmationNode()
      modifies this
      ensures state == Confirm(old(state))
    {
      if state.pending.None? {
        state := state.(status := PassThrough);
        return;
      }
      var p := state.pending.value;
      if IsYes(state.message) {
        AcceptPending(p);
      } else if IsNo(state.message) {
        WriteStatus(p.key, Rejected);
        state := state.(pending := None, status := PassThrough);
      } else {
        state := state.(status := PassThrough);
      }
    }

    /** One turn through the graph. */
    method Advance(t: Turn) returns (place: Place)
      modifies this
      ensures state == Step(old(state), t)
      ensures t.Message? ==> place == Routed(old(state), t).place
    {
      match t {
        case Cleared =>
          state := state.(hint := EMPTY_HINT, collected := map[], remaining := map[]);
          place := End;
        case GuardrailBlocked(message) =>
          state := Init(state, message);
          place := ResponseHandler;
        case Message(message, detection, number, now, work) =>
          state := Init(state, message);
          state := Detect(state, detection);
          SwitchIntentNode(number, now);
          place := EdgeFromSwitchIntent(state);
          if place == SwitchConfirmation {
            SwitchConfirmationNode();
            place := EdgeFromSwitchConfirmation(state);
          }
          if place == PlacementValidator {
            place := EdgeFromPlacement(state, work.needsInput, work.missingPlacement);
          }
          if IsWorkflow(place) { state := Worked(state, place, work); }
      }
    }
  }
}
