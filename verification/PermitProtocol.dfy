/** The one-use permit of a governed function: a decision is awaited, the call is released
    to its own task, and the physical handler is entered at most once. Each step is what
    runs between two awaits; any task may try anything at any time. */
module PermitProtocol {
  import opened Wrappers

  type Task = nat

  type Digest = string

  datatype Phase = Request | Decision | Blocked | Release | Dispatch | Start | Completion | Closed

  datatype Event = Event(phase: Phase, at: string)

  datatype Action = Allow | Block | OtherAction

  /** What is recorded of a decision. */
  datatype DecisionRecord = DecisionRecord(action: Action, recordId: Option<string>, policyId: Option<string>)

  datatype Status = Unknown | Success | Failure | Cancelled | NotExecuted

  datatype Invocation = Invocation(requestId: string, callId: string, occurrenceId: Option<string>, runId: string,
                                   effective: Digest, events: seq<Event>, decision: Option<DecisionRecord>,
                                   executed: Option<Digest>, outcome: Status, reason: string)

  datatype Permit = Permit(owner: Task, context: nat, consumed: bool)

  /** Where the claimed call is: not begun, awaiting its decision, awaiting the rest of the
      chain, or over. */
  datatype Point = Idle | Deciding(owner: Task, context: nat) | Dispatched(owner: Task, context: nat) | Over

  datatype Handler = NotEntered | Running | Ended

  /** `holders` are the tasks whose context carries the permit; `entries` are the tasks that
      entered the physical handler. */
  datatype State = State(claimed: bool, records: seq<Invocation>, permit: Option<Permit>, holders: set<Task>,
                         point: Point, handler: Handler, entries: seq<Task>)

  /** What the adapter sees of a call: whether the tool is still the one it made, the call
      id, and the digest of the arguments, if they are supported. */
  datatype View = View(context: nat, genuine: bool, callId: string, occurrenceId: Option<string>,
                       digest: Option<Digest>)

  datatype Reply = Raised(name: string) | Replied(bound: bool, decision: DecisionRecord)

  datatype Ending = Returned | Threw(name: string, cancelled: bool)

  datatype Step =
    | Process(task: Task, view: View, requestId: string)
    | Decided(reply: Reply, view: View)
    | Enter(task: Task, view: View, sameFunction: bool, value: Option<Digest>)
    | HandlerEnds(ending: Ending)
    | DispatchEnds(failure: Option<string>)
    | Spawn(parent: Task, child: Task)

  const INITIAL := State(false, [], None, {}, Idle, NotEntered, [])

  /** The times events get; the run the function belongs to. */
  datatype Host = Host(clock: nat -> string, runId: string)

  function Note(host: Host, r: Invocation, phase: Phase): Invocation {
    r.(events := r.events + [Event(phase, host.clock(|r.events|))])
  }

  function Refused(host: Host, r: Invocation, name: string): Invocation {
    Note(host, if r.executed.None? then r.(outcome := NotExecuted, reason := "adapter_refused_" + name) else r, Closed)
  }

  function WithRecord(s: State, r: Invocation): State { s.(records := [r]) }

  /** The call begins: refused, or claimed for good and recorded. */
  function ProcessStep(host: Host, s: State, task: Task, view: View, requestId: string): State {
    if !view.genuine || view.callId == "" || s.claimed then s
    else if view.digest.None? then s.(claimed := true)
    else
      var r := Invocation(requestId, view.callId, view.occurrenceId, host.runId, view.digest.value, [], None,
                          None, Unknown, "no_terminal_observation");
      s.(claimed := true, records := [Note(host, r, Request)], point := Deciding(task, view.context))
  }

  /** The decision arrives: block, refuse, or release to the task that asked. */
  function DecidedStep(host: Host, s: State, reply: Reply, view: View): State {
    if !s.point.Deciding? || s.records == [] then s
    else
      var r := s.records[0];
      match reply
      case Raised(name) => WithRecord(s, Refused(host, r, name)).(point := Over)
      case Replied(bound, decision) =>
        if !bound then WithRecord(s, Refused(host, r, "MiddlewareFailure")).(point := Over)
        else
          var decided := Note(host, r.(decision := Some(decision)), Decision);
          if !view.genuine || view.digest != Some(r.effective) then
            WithRecord(s, Refused(host, decided, "MiddlewareFailure")).(point := Over)
          else if decision.action.Block? then
            var blocked := Note(host, decided.(outcome := NotExecuted, reason := "agentfuse_policy_block"), Blocked);
            WithRecord(s, Note(host, blocked, Closed)).(point := Over)
          else if !decision.action.Allow? then
            WithRecord(s, Refused(host, decided, "MiddlewareFailure")).(point := Over)
          else
            WithRecord(s, Note(host, Note(host, decided, Release), Dispatch))
            .(permit := Some(Permit(s.point.owner, s.point.context, false)), holders := s.holders + {s.point.owner},
              point := Dispatched(s.point.owner, s.point.context))
  }

  /** Whether a call of the bound function passes its checks. */
  predicate MayEnter(s: State, task: Task, view: View, sameFunction: bool, value: Option<Digest>) {
    && s.permit.Some? && s.records != []
    && task in s.holders && !s.permit.value.consumed && s.permit.value.owner == task
    && s.permit.value.context == view.context
    && sameFunction && view.genuine
    && value == Some(s.records[0].effective) && view.digest == value
  }

  /** The bound function is called: it is refused, or it uses up the permit and enters the
      physical handler. */
  function EnterStep(host: Host, s: State, task: Task, view: View, sameFunction: bool, value: Option<Digest>): State {
    if !MayEnter(s, task, view, sameFunction, value) then s
    else
      WithRecord(s, Note(host, s.records[0].(executed := value), Start))
      .(permit := Some(s.permit.value.(consumed := true)), handler := Running, entries := s.entries + [task])
  }

  function HandlerEndsStep(host: Host, s: State, ending: Ending): State {
    if !s.handler.Running? || s.records == [] then s
    else
      var r := s.records[0];
      var done := match ending
        case Returned => r.(outcome := Success, reason := "")
        case Threw(name, cancelled) => r.(outcome := if cancelled then Cancelled else Failure,
                                          reason := "physical_handler_" + name);
      WithRecord(s, Note(host, done, Completion)).(handler := Ended)
  }

  /** The rest of the chain is over. It runs in the owner's task, so never while the handler
      entered by that task runs. */
  function DispatchEndsStep(host: Host, s: State, failure: Option<string>): State {
    if !s.point.Dispatched? || s.handler.Running? || s.records == [] || s.permit.None? then s
    else
      var r := s.records[0];
      var closed := if failure.Some? then Refused(host, r, failure.value)
                    else if !s.permit.value.consumed then Refused(host, r, "MiddlewareFailure")
                    else Note(host, r, Closed);
      WithRecord(s, closed).(holders := s.holders - {s.point.owner}, point := Over)
  }

  /** A new task starts with the context of the task that made it. */
  function SpawnStep(s: State, parent: Task, child: Task): State {
    if parent in s.holders && (s.permit.None? || child != s.permit.value.owner) then s.(holders := s.holders + {child})
    else s
  }

  function Next(host: Host, s: State, step: Step): State {
    match step
    case Process(task, view, requestId) => ProcessStep(host, s, task, view, requestId)
    case Decided(reply, view) => DecidedStep(host, s, reply, view)
    case Enter(task, view, sameFunction, value) => EnterStep(host, s, task, view, sameFunction, value)
    case HandlerEnds(ending) => HandlerEndsStep(host, s, ending)
    case DispatchEnds(failure) => DispatchEndsStep(host, s, failure)
    case Spawn(parent, child) => SpawnStep(s, parent, child)
  }

  function Play(host: Host, steps: seq<Step>): State {
    if steps == [] then INITIAL else Next(host, Play(host, steps[..|steps| - 1]), steps[|steps| - 1])
  }

  // ---------- what every schedule keeps ----------

  function Phases(events: seq<Event>): (phases: seq<Phase>)
    ensures |phases| == |events| && forall i :: 0 <= i < |events| ==> phases[i] == events[i].phase
  {
    seq(|events|, i requires 0 <= i < |events| => events[i].phase)
  }

  const RELEASED := [Request, Decision, Release, Dispatch]

  predicate TimesAreClock(host: Host, r: Invocation) {
    forall i :: 0 <= i < |r.events| ==> r.events[i].at == host.clock(i)
  }

  /** A record whose handler was not entered. */
  predicate Untouched(r: Invocation) { r.executed.None? && r.outcome == NotExecuted && Stated(r.reason) }

  /** A reason begins with one of the adapter's own words. */
  predicate Stated(reason: string) {
    reason == "agentfuse_policy_block" || "adapter_refused_" <= reason || "physical_handler_" <= reason
  }

  predicate Executed(r: Invocation) {
    && r.executed == Some(r.effective)
    && ((r.outcome == Success && r.reason == "")
        || ((r.outcome == Failure || r.outcome == Cancelled) && Stated(r.reason)))
  }

  predicate Allowed(r: Invocation) { r.decision.Some? && r.decision.value.action.Allow? }

  /** How a finished record reads. */
  predicate Finished(r: Invocation) {
    var phases := Phases(r.events);
    || (phases == [Request, Closed] && r.decision.None? && Untouched(r))
    || (phases == [Request, Decision, Closed] && r.decision.Some? && Untouched(r))
    || (phases == [Request, Decision, Blocked, Closed] && r.decision.Some? && r.decision.value.action.Block?
        && Untouched(r))
    || (phases == RELEASED + [Closed] && Allowed(r) && Untouched(r))
    || (phases == RELEASED + [Start, Completion, Closed] && Allowed(r) && Executed(r))
  }

  predicate Entered(s: State) { !s.handler.NotEntered? }

  /** The invariant, point by point. */
  predicate Sound(host: Host, s: State) {
    && (s.permit.None? ==> !Entered(s) && s.entries == [] && s.holders == {})
    && (s.permit.Some? ==> s.entries == if Entered(s) then [s.permit.value.owner] else [])
    && (s.permit.Some? ==> (s.permit.value.consumed <==> Entered(s)))
    && match s.point
       case Idle => s.records == [] && s.permit.None?
       case Deciding(_, _) =>
         && s.claimed && s.permit.None? && |s.records| == 1
         && var r := s.records[0];
            && Phases(r.events) == [Request] && r.decision.None? && r.executed.None? && TimesAreClock(host, r)
            && r.callId != "" && r.runId == host.runId
       case Dispatched(owner, context) =>
         && s.claimed && |s.records| == 1 && s.permit.Some? && s.permit.value.owner == owner
         && s.permit.value.context == context
         && var r := s.records[0];
            && Allowed(r) && TimesAreClock(host, r) && r.callId != "" && r.runId == host.runId
            && (match s.handler
                case NotEntered => Phases(r.events) == RELEASED && r.executed.None?
                case Running => Phases(r.events) == RELEASED + [Start] && r.executed == Some(r.effective)
                case Ended => Phases(r.events) == RELEASED + [Start, Completion] && Executed(r))
       case Over =>
         && s.claimed && |s.records| == 1 && !s.handler.Running?
         && (s.permit.Some? ==> s.permit.value.owner !in s.holders)
         && var r := s.records[0];
            Finished(r) && TimesAreClock(host, r) && (r.executed.Some? <==> Entered(s)) && r.callId != ""
            && r.runId == host.runId
  }

  lemma NotePhases(host: Host, r: Invocation, phase: Phase)
    requires TimesAreClock(host, r)
    ensures Phases(Note(host, r, phase).events) == Phases(r.events) + [phase]
    ensures TimesAreClock(host, Note(host, r, phase))
  {}

  lemma ProcessKeepsSound(host: Host, s: State, task: Task, view: View, requestId: string)
    requires Sound(host, s)
    ensures Sound(host, ProcessStep(host, s, task, view, requestId))
  {}

  lemma DecidedKeepsSound(host: Host, s: State, reply: Reply, view: View)
    requires Sound(host, s)
    ensures Sound(host, DecidedStep(host, s, reply, view))
  {
    hide TimesAreClock;
    if s.point.Deciding? && s.records != [] {
      var r := s.records[0];
      NotePhases(host, r, Closed);
      NotePhases(host, r.(outcome := NotExecuted), Closed);
      if reply.Raised? || !reply.bound {
        RefusedFinishes(host, r, if reply.Raised? then reply.name else "MiddlewareFailure");
      } else {
        var decided := Note(host, r.(decision := Some(reply.decision)), Decision);
        DecidedRecord(host, r, reply.decision);
        RefusedFinishes(host, decided, "MiddlewareFailure");
        BlockFinishes(host, decided);
        NotePhases(host, decided, Release);
        NotePhases(host, Note(host, decided, Release), Dispatch);
      }
    }
  }

  lemma DecidedRecord(host: Host, r: Invocation, decision: DecisionRecord)
    requires TimesAreClock(host, r) && Phases(r.events) == [Request]
    ensures var decided := Note(host, r.(decision := Some(decision)), Decision);
            TimesAreClock(host, decided) && Phases(decided.events) == [Request, Decision]
  {}

  /** A refusal before the handler was entered finishes the record. */
  lemma RefusedFinishes(host: Host, r: Invocation, name: string)
    requires TimesAreClock(host, r) && r.executed.None?
    requires || (Phases(r.events) == [Request] && r.decision.None?)
             || (Phases(r.events) == [Request, Decision] && r.decision.Some?)
             || (Phases(r.events) == RELEASED && Allowed(r))
    ensures Finished(Refused(host, r, name)) && TimesAreClock(host, Refused(host, r, name))
  {
    var refused := r.(outcome := NotExecuted, reason := "adapter_refused_" + name);
    assert Phases(refused.events) == Phases(r.events);
    NotePhases(host, refused, Closed);
    assert Stated(refused.reason);
  }

  lemma BlockFinishes(host: Host, decided: Invocation)
    requires TimesAreClock(host, decided) && decided.executed.None? && Phases(decided.events) == [Request, Decision]
    requires decided.decision.Some?
    ensures var blocked := Note(host, decided.(outcome := NotExecuted, reason := "agentfuse_policy_block"), Blocked);
            TimesAreClock(host, Note(host, blocked, Closed))
            && (decided.decision.value.action.Block? ==> Finished(Note(host, blocked, Closed)))
  {
    var refused := decided.(outcome := NotExecuted, reason := "agentfuse_policy_block");
    NotePhases(host, refused, Blocked);
    NotePhases(host, Note(host, refused, Blocked), Closed);
  }

  lemma EnterKeepsSound(host: Host, s: State, task: Task, view: View, sameFunction: bool, value: Option<Digest>)
    requires Sound(host, s)
    ensures Sound(host, EnterStep(host, s, task, view, sameFunction, value))
  {
    if MayEnter(s, task, view, sameFunction, value) {
      NotePhases(host, s.records[0].(executed := value), Start);
    }
  }

  lemma HandlerEndsKeepsSound(host: Host, s: State, ending: Ending)
    requires Sound(host, s)
    ensures Sound(host, HandlerEndsStep(host, s, ending))
  {
    if s.handler.Running? && s.records != [] {
      var r := s.records[0];
      var done := match ending
        case Returned => r.(outcome := Success, reason := "")
        case Threw(name, cancelled) => r.(outcome := if cancelled then Cancelled else Failure,
                                          reason := "physical_handler_" + name);
      assert ending.Threw? ==> Stated(done.reason);
      NotePhases(host, done, Completion);
    }
  }

  lemma DispatchEndsKeepsSound(host: Host, s: State, failure: Option<string>)
    requires Sound(host, s)
    ensures Sound(host, DispatchEndsStep(host, s, failure))
  {
    if s.point.Dispatched? && !s.handler.Running? && s.records != [] && s.permit.Some? {
      var r := s.records[0];
      if r.executed.None? { RefusedFinishes(host, r, if failure.Some? then failure.value else "MiddlewareFailure"); }
      NotePhases(host, r, Closed);
    }
  }

  lemma NextKeepsSound(host: Host, s: State, step: Step)
    requires Sound(host, s)
    ensures Sound(host, Next(host, s, step))
  {
    hide ProcessStep, DecidedStep, EnterStep, HandlerEndsStep, DispatchEndsStep;
    match step
    case Process(task, view, requestId) => ProcessKeepsSound(host, s, task, view, requestId);
    case Decided(reply, view) => DecidedKeepsSound(host, s, reply, view);
    case Enter(task, view, sameFunction, value) => EnterKeepsSound(host, s, task, view, sameFunction, value);
    case HandlerEnds(ending) => HandlerEndsKeepsSound(host, s, ending);
    case DispatchEnds(failure) => DispatchEndsKeepsSound(host, s, failure);
    case Spawn(parent, child) =>
  }

  lemma {:induction false} PlayIsSound(host: Host, steps: seq<Step>)
    ensures Sound(host, Play(host, steps))
  {
    hide Sound, Next;
    if steps == [] {
      assert Sound(host, INITIAL) by { InitialIsSound(host); }
    } else {
      PlayIsSound(host, steps[..|steps| - 1]);
      NextKeepsSound(host, Play(host, steps[..|steps| - 1]), steps[|steps| - 1]);
    }
  }

  lemma InitialIsSound(host: Host)
    ensures Sound(host, INITIAL)
  {}

  // ---------- main results ----------

  /** In every schedule, at most one task enters the handler: the task whose call was
      allowed. By then its record holds request, decision, release and dispatch, in this
      order, the decision allows the call, and the arguments executed are the arguments
      decided on. */
  lemma EnteredOnceAsAllowed(host: Host, steps: seq<Step>)
    ensures var s := Play(host, steps);
            && |s.entries| <= 1
            && (s.entries != [] ==>
                  && s.permit.Some? && s.entries == [s.permit.value.owner]
                  && |s.records| == 1 && RELEASED + [Start] <= Phases(s.records[0].events)
                  && Allowed(s.records[0]) && s.records[0].executed == Some(s.records[0].effective))
  {
    PlayIsSound(host, steps);
    var s := Play(host, steps);
    if s.entries != [] && s.point.Dispatched? {
      var phases := Phases(s.records[0].events);
      assert phases == RELEASED + [Start] || phases[..5] == RELEASED + [Start];
    } else if s.entries != [] {
      assert Phases(s.records[0].events)[..5] == RELEASED + [Start];
    }
  }

  /** The step that enters the handler is taken by the owner while its call is dispatched. */
  lemma EntryIsByOwner(host: Host, steps: seq<Step>, step: Step)
    requires Next(host, Play(host, steps), step).entries != Play(host, steps).entries
    ensures var s := Play(host, steps);
            && step.Enter? && s.point.Dispatched? && step.task == s.point.owner && step.view.context == s.point.context
            && Phases(s.records[0].events) == RELEASED && step.value == Some(s.records[0].effective)
  {
    PlayIsSound(host, steps);
  }

  /** A call that was not allowed is never entered, now or later. */
  lemma BlockedNeverEnters(host: Host, steps: seq<Step>, more: seq<Step>)
    requires var s := Play(host, steps);
             s.records != [] && s.records[0].decision.Some? && !s.records[0].decision.value.action.Allow?
    ensures Play(host, steps + more).entries == []
    ensures Play(host, steps + more).records == Play(host, steps).records
  {
    PlayIsSound(host, steps);
    OverForever(host, steps, more);
  }

  lemma OverStays(host: Host, s: State, step: Step)
    requires Sound(host, s) && s.point.Over?
    ensures var next := Next(host, s, step);
            next.point.Over? && next.records == s.records && next.entries == s.entries && next.handler == s.handler
  {}

  /** A closed record is final, and nothing enters the handler after it. */
  lemma {:induction false} OverForever(host: Host, steps: seq<Step>, more: seq<Step>)
    requires Play(host, steps).point.Over?
    ensures var s, t := Play(host, steps), Play(host, steps + more);
            t.point.Over? && t.records == s.records && t.entries == s.entries && t.handler == s.handler
    decreases |more|
  {
    hide Next, Sound;
    if more == [] {
      assert steps + more == steps;
    } else {
      var front := steps + more[..|more| - 1];
      assert (steps + more)[..|steps + more| - 1] == front;
      OverForever(host, steps, more[..|more| - 1]);
      PlayIsSound(host, front);
      OverStays(host, Play(host, front), more[|more| - 1]);
    }
  }

  /** A closed record, of any schedule, reads as one of the five finished forms. */
  lemma ClosedIsFinished(host: Host, steps: seq<Step>)
    requires var s := Play(host, steps); s.records != [] && Closed in Phases(s.records[0].events)
    ensures var r := Play(host, steps).records[0];
            Finished(r) && TimesAreClock(host, r) && r.callId != "" && r.runId == host.runId
  {
    PlayIsSound(host, steps);
  }
}
