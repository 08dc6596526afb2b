/** Concurrency slots of the delegation manager.

A delegation is a coroutine with four awaits; at any of them it can be overtaken by other operations,
fail, or be cancelled.  `ops` holds the coroutines in progress, each with the await it is suspended in. */
module DelegationModel {
  type WorkflowId = string
  type AgentId = nat
  type OpId = nat

  datatype Phase =
    | Waiting                              // for a semaphore permit
    | Spawning(acquired: bool)             // for the spawn callback
    | StoppingPrevious(agent: AgentId)     // for the replaced agent to stop
    | Sending(agent: AgentId)              // for task.assign to be accepted
    | StoppingOwn(agent: AgentId, popped: bool)  // after a failed send, for the own agent to stop

  datatype Op = Op(workflow: WorkflowId, phase: Phase)

  datatype State = State(
    permits: nat,
    spawned: map<WorkflowId, AgentId>,
    ops: map<OpId, Op>,
    nextAgent: AgentId,
    closing: set<WorkflowId>,              // listed by `close`, and not terminated yet
    stopped: multiset<AgentId>)            // history: every agent that was told to stop

  datatype Event =
    | Delegate(op: OpId, workflow: WorkflowId)
    | Acquired(op: OpId)
    | WaitCancelled(op: OpId)
    | Spawned(op: OpId)
    | SpawnFails(op: OpId)                 // an exception, or cancellation
    | PreviousStopped(op: OpId)            // returned, or raised
    | PreviousStopCancelled(op: OpId)
    | SendSucceeds(op: OpId)
    | SendFails(op: OpId)                  // an exception
    | SendCancelled(op: OpId)
    | OwnStopEnds(op: OpId)                // returned, raised, or cancelled
    | Terminate(workflow: WorkflowId)
    | CloseBegins
    | CloseNext(workflow: WorkflowId)

  function Initial(maxConcurrent: nat): State {
    State(maxConcurrent, map[], map[], 0, {}, multiset{})
  }

  predicate Enabled(s: State, e: Event) {
    match e
    case Delegate(op, _) => op !in s.ops
    case Acquired(op) => op in s.ops && s.ops[op].phase.Waiting? && s.permits > 0
    case WaitCancelled(op) => op in s.ops && s.ops[op].phase.Waiting?
    case Spawned(op) => op in s.ops && s.ops[op].phase.Spawning?
    case SpawnFails(op) => op in s.ops && s.ops[op].phase.Spawning?
    case PreviousStopped(op) => op in s.ops && s.ops[op].phase.StoppingPrevious?
    case PreviousStopCancelled(op) => op in s.ops && s.ops[op].phase.StoppingPrevious?
    case SendSucceeds(op) => op in s.ops && s.ops[op].phase.Sending?
    case SendFails(op) => op in s.ops && s.ops[op].phase.Sending?
    case SendCancelled(op) => op in s.ops && s.ops[op].phase.Sending?
    case OwnStopEnds(op) => op in s.ops && s.ops[op].phase.StoppingOwn?
    case Terminate(_) => true
    case CloseBegins => true
    case CloseNext(workflow) => workflow in s.closing
  }

  function Suspend(s: State, op: OpId, phase: Phase): State
    requires op in s.ops
  {
    s.(ops := s.ops[op := s.ops[op].(phase := phase)])
  }

  /** Past the depth check: a workflow that is not live has to wait for a permit. */
  function BeginDelegate(s: State, op: OpId, workflow: WorkflowId): State {
    s.(ops := s.ops[op := Op(workflow, if workflow in s.spawned then Spawning(false) else Waiting)])
  }

  function TakePermit(s: State, op: OpId): State
    requires op in s.ops && s.permits > 0
  {
    Suspend(s.(permits := s.permits - 1), op, Spawning(true))
  }

  /** Install the new agent, then stop the one it replaces. */
  function Install(s: State, op: OpId): State
    requires op in s.ops
  {
    var workflow := s.ops[op].workflow;
    var previous := if workflow in s.spawned then multiset{s.spawned[workflow]} else multiset{};
    Suspend(s.(spawned := s.spawned[workflow := s.nextAgent],
               nextAgent := s.nextAgent + 1,
               stopped := s.stopped + previous),
            op, if workflow in s.spawned then StoppingPrevious(s.nextAgent) else Sending(s.nextAgent))
  }

  /** Compare-and-pop, then stop the agent whose assignment could not be sent. */
  function GiveUp(s: State, op: OpId): State
    requires op in s.ops && s.ops[op].phase.Sending?
  {
    var workflow, agent := s.ops[op].workflow, s.ops[op].phase.agent;
    var t := s.(stopped := s.stopped + multiset{agent});
    if workflow in s.spawned && s.spawned[workflow] == agent
    then Suspend(t.(spawned := s.spawned - {workflow}), op, StoppingOwn(agent, true))
    else Suspend(t, op, StoppingOwn(agent, false))
  }

  /** The outermost handler: give the slot back if the workflow is not live. */
  function Unwind(s: State, op: OpId): State
    requires op in s.ops
  {
    s.(permits := if s.ops[op].workflow in s.spawned then s.permits else s.permits + 1, ops := s.ops - {op})
  }

  function TerminateWorkflow(s: State, workflow: WorkflowId): State {
    if workflow !in s.spawned then s
    else
      s.(spawned := s.spawned - {workflow},
         permits := s.permits + 1,
         stopped := s.stopped + multiset{s.spawned[workflow]})
  }

  function Step(s: State, e: Event): State
    requires Enabled(s, e)
  {
    match e
    case Delegate(op, workflow) => BeginDelegate(s, op, workflow)
    case Acquired(op) => TakePermit(s, op)
    case WaitCancelled(op) => s.(ops := s.ops - {op})
    case Spawned(op) => Install(s, op)
    case SpawnFails(op) => Unwind(s, op)
    case PreviousStopped(op) => Suspend(s, op, Sending(s.ops[op].phase.agent))
    case PreviousStopCancelled(op) => Unwind(s, op)
    case SendSucceeds(op) => s.(ops := s.ops - {op})
    case SendFails(op) => GiveUp(s, op)
    case SendCancelled(op) => Unwind(s, op)
    case OwnStopEnds(op) => Unwind(s, op)
    case Terminate(workflow) => TerminateWorkflow(s, workflow)
    case CloseBegins => s.(closing := s.closing + s.spawned.Keys)
    case CloseNext(workflow) => TerminateWorkflow(s, workflow).(closing := s.closing - {workflow})
  }

  predicate EnabledRun(s: State, es: seq<Event>)
    decreases |es|
  {
    es == [] || (Enabled(s, es[0]) && EnabledRun(Step(s, es[0]), es[1..]))
  }

  function Run(s: State, es: seq<Event>): State
    requires EnabledRun(s, es)
    decreases |es|
  {
    if es == [] then s else Run(Step(s, es[0]), es[1..])
  }
}

/** No slot is lost and none is released twice. */
module DelegationProofs {
  import opened DelegationModel

  /** A coroutine that owns a slot which is in neither the semaphore nor the table of live workflows. */
  predicate Holds(phase: Phase) {
    (phase.Spawning? && phase.acquired) || (phase.StoppingOwn? && phase.popped)
  }

  function Holders(ops: map<OpId, Op>): set<OpId> {
    set op | op in ops && Holds(ops[op].phase)
  }

  function Slots(s: State): nat {
    s.permits + |s.spawned| + |Holders(s.ops)|
  }

  // ---- one step ----------------------------------------------------------------------------------

  /** What keeps the number of slots: where a coroutine installs an agent or unwinds, it holds a slot
      outside the table exactly if its workflow is not live. */
  predicate Sound(s: State, e: Event)
    requires Enabled(s, e)
  {
    match e
    case Spawned(op) => Holds(s.ops[op].phase) <==> s.ops[op].workflow !in s.spawned
    case SpawnFails(op) => Holds(s.ops[op].phase) <==> s.ops[op].workflow !in s.spawned
    case PreviousStopCancelled(op) => Holds(s.ops[op].phase) <==> s.ops[op].workflow !in s.spawned
    case SendCancelled(op) => Holds(s.ops[op].phase) <==> s.ops[op].workflow !in s.spawned
    case OwnStopEnds(op) => Holds(s.ops[op].phase) <==> s.ops[op].workflow !in s.spawned
    case _ => true
  }

  lemma HoldersAfterUpdate(ops: map<OpId, Op>, op: OpId, next: Op)
    ensures |Holders(ops[op := next])|
         == |Holders(ops)| - (if op in ops && Holds(ops[op].phase) then 1 else 0) + (if Holds(next.phase) then 1 else 0)
  {
    var others := Holders(ops) - {op};
    assert Holders(ops) == if op in ops && Holds(ops[op].phase) then others + {op} else others;
    assert Holders(ops[op := next]) == if Holds(next.phase) then others + {op} else others;
  }

  lemma HoldersAfterEnd(ops: map<OpId, Op>, op: OpId)
    requires op in ops
    ensures |Holders(ops - {op})| == |Holders(ops)| - (if Holds(ops[op].phase) then 1 else 0)
  {
    var others := Holders(ops) - {op};
    assert Holders(ops) == if Holds(ops[op].phase) then others + {op} else others;
    assert Holders(ops - {op}) == others;
  }

  lemma SizeAfterRemoval(spawned: map<WorkflowId, AgentId>, workflow: WorkflowId)
    requires workflow in spawned
    ensures |spawned - {workflow}| == |spawned| - 1
  {
    assert (spawned - {workflow}).Keys == spawned.Keys - {workflow};
    assert |spawned.Keys| == |spawned| && |(spawned - {workflow}).Keys| == |spawned - {workflow}|;
  }

  lemma SizeAfterInstall(spawned: map<WorkflowId, AgentId>, workflow: WorkflowId, agent: AgentId)
    ensures |spawned[workflow := agent]| == |spawned| + (if workflow in spawned then 0 else 1)
  {
    assert spawned[workflow := agent].Keys == spawned.Keys + {workflow};
    assert |spawned.Keys| == |spawned| && |spawned[workflow := agent].Keys| == |spawned[workflow := agent]|;
  }

  lemma BeginSlots(s: State, op: OpId, workflow: WorkflowId)
    requires op !in s.ops
    ensures Slots(BeginDelegate(s, op, workflow)) == Slots(s)
  {
    HoldersAfterUpdate(s.ops, op, BeginDelegate(s, op, workflow).ops[op]);
  }

  lemma PermitSlots(s: State, op: OpId)
    requires op in s.ops && s.ops[op].phase.Waiting? && s.permits > 0
    ensures Slots(TakePermit(s, op)) == Slots(s)
  {
    HoldersAfterUpdate(s.ops, op, TakePermit(s, op).ops[op]);
  }

  lemma SuspendSlots(s: State, op: OpId, phase: Phase)
    requires op in s.ops && !Holds(s.ops[op].phase) && !Holds(phase)
    ensures Slots(Suspend(s, op, phase)) == Slots(s)
  {
    HoldersAfterUpdate(s.ops, op, Suspend(s, op, phase).ops[op]);
  }

  lemma InstallExact(s: State, op: OpId)
    requires op in s.ops
    ensures Slots(Install(s, op)) == Slots(s) <==> (Holds(s.ops[op].phase) <==> s.ops[op].workflow !in s.spawned)
  {
    HoldersAfterUpdate(s.ops, op, Install(s, op).ops[op]);
    SizeAfterInstall(s.spawned, s.ops[op].workflow, s.nextAgent);
  }

  lemma GiveUpSlots(s: State, op: OpId)
    requires op in s.ops && s.ops[op].phase.Sending?
    ensures Slots(GiveUp(s, op)) == Slots(s)
  {
    HoldersAfterUpdate(s.ops, op, GiveUp(s, op).ops[op]);
    if s.ops[op].workflow in s.spawned {
      SizeAfterRemoval(s.spawned, s.ops[op].workflow);
    }
  }

  lemma UnwindExact(s: State, op: OpId)
    requires op in s.ops
    ensures Slots(Unwind(s, op)) == Slots(s) <==> (Holds(s.ops[op].phase) <==> s.ops[op].workflow !in s.spawned)
  {
    HoldersAfterEnd(s.ops, op);
  }

  lemma TerminateSlots(s: State, workflow: WorkflowId)
    ensures Slots(TerminateWorkflow(s, workflow)) == Slots(s)
  {
    if workflow in s.spawned {
      SizeAfterRemoval(s.spawned, workflow);
    }
  }

  /** In any state whatever, a step keeps the number of slots if and only if it is sound. */
  lemma StepExact(s: State, e: Event)
    requires Enabled(s, e)
    ensures Slots(Step(s, e)) == Slots(s) <==> Sound(s, e)
  {
    match e
    case Delegate(op, workflow) => BeginSlots(s, op, workflow);
    case Acquired(op) => PermitSlots(s, op);
    case WaitCancelled(op) => HoldersAfterEnd(s.ops, op);
    case Spawned(op) => InstallExact(s, op);
    case SpawnFails(op) => UnwindExact(s, op);
    case PreviousStopped(op) => SuspendSlots(s, op, Sending(s.ops[op].phase.agent));
    case PreviousStopCancelled(op) => UnwindExact(s, op);
    case SendSucceeds(op) => HoldersAfterEnd(s.ops, op);
    case SendFails(op) => GiveUpSlots(s, op);
    case SendCancelled(op) => UnwindExact(s, op);
    case OwnStopEnds(op) => UnwindExact(s, op);
    case Terminate(workflow) => TerminateSlots(s, workflow);
    case CloseBegins =>
    case CloseNext(workflow) => TerminateSlots(s, workflow);
  }

  // ---- whole runs --------------------------------------------------------------------------------

  predicate SoundRun(s: State, es: seq<Event>)
    requires EnabledRun(s, es)
    decreases |es|
  {
    es == [] || (Sound(s, es[0]) && SoundRun(Step(s, es[0]), es[1..]))
  }

  predicate SlotsThroughout(n: nat, s: State, es: seq<Event>)
    requires EnabledRun(s, es)
    decreases |es|
  {
    Slots(s) == n && (es != [] ==> SlotsThroughout(n, Step(s, es[0]), es[1..]))
  }

  /** Every interleaving at all: the slots are conserved throughout if and only if every step was sound. */
  lemma {:induction false} RunExact(n: nat, s: State, es: seq<Event>)
    requires EnabledRun(s, es) && Slots(s) == n
    ensures SlotsThroughout(n, s, es) <==> SoundRun(s, es)
    decreases |es|
  {
    if es != [] {
      StepExact(s, es[0]);
      if Sound(s, es[0]) {
        RunExact(n, Step(s, es[0]), es[1..]);
      }
    }
  }

  // ---- operations of one workflow in turn, different workflows in any order ----------------------

  predicate Idle(s: State, workflow: WorkflowId) {
    forall op :: op in s.ops ==> s.ops[op].workflow != workflow
  }

  /** Nothing is started on a workflow while a delegation of it is in progress. */
  predicate InTurn(s: State, e: Event) {
    match e
    case Delegate(_, workflow) => Idle(s, workflow)
    case Terminate(workflow) => Idle(s, workflow)
    case CloseNext(workflow) => Idle(s, workflow)
    case _ => true
  }

  predicate InTurnRun(s: State, es: seq<Event>)
    requires EnabledRun(s, es)
    decreases |es|
  {
    es == [] || (InTurn(s, es[0]) && InTurnRun(Step(s, es[0]), es[1..]))
  }

  /** Where each coroutine stands with respect to the table of live workflows. */
  predicate PhaseOk(spawned: map<WorkflowId, AgentId>, op: Op) {
    match op.phase
    case Waiting => op.workflow !in spawned
    case Spawning(acquired) => acquired <==> op.workflow !in spawned
    case StoppingPrevious(agent) => op.workflow in spawned && spawned[op.workflow] == agent
    case Sending(agent) => op.workflow in spawned && spawned[op.workflow] == agent
    case StoppingOwn(_, popped) => popped && op.workflow !in spawned
  }

  /** One coroutine per workflow, and each where its phase says. */
  ghost predicate Placed(s: State) {
    && (forall op :: op in s.ops ==> PhaseOk(s.spawned, s.ops[op]))
    && (forall p, q :: p in s.ops && q in s.ops && s.ops[p].workflow == s.ops[q].workflow ==> p == q)
  }

  ghost predicate Inv(maxConcurrent: nat, s: State) {
    Slots(s) == maxConcurrent && Placed(s)
  }

  /** A coroutine begins or goes on, and nothing happens to other workflows. */
  lemma OpMoves(s: State, t: State, op: OpId, next: Op)
    requires Placed(s) && t.ops == s.ops[op := next] && PhaseOk(t.spawned, next)
    requires if op in s.ops then next.workflow == s.ops[op].workflow else Idle(s, next.workflow)
    requires t.spawned - {next.workflow} == s.spawned - {next.workflow}
    ensures Placed(t)
  {
    forall other | other in s.ops && other != op
      ensures s.ops[other].workflow != next.workflow && PhaseOk(t.spawned, s.ops[other])
    {
      var workflow := s.ops[other].workflow;
      assert workflow in t.spawned <==> workflow in t.spawned - {next.workflow};
      assert workflow in s.spawned <==> workflow in s.spawned - {next.workflow};
      assert workflow in s.spawned ==> (s.spawned - {next.workflow})[workflow] == (t.spawned - {next.workflow})[workflow];
    }
  }

  lemma OpEnds(s: State, t: State, op: OpId)
    requires Placed(s) && t.ops == s.ops - {op} && t.spawned == s.spawned
    ensures Placed(t)
  {
  }

  lemma IdleLeaves(s: State, t: State, workflow: WorkflowId)
    requires Placed(s) && Idle(s, workflow) && t.ops == s.ops && t.spawned == s.spawned - {workflow}
    ensures Placed(t)
  {
  }

  lemma TerminateLeaves(s: State, workflow: WorkflowId)
    ensures TerminateWorkflow(s, workflow).spawned == s.spawned - {workflow} && TerminateWorkflow(s, workflow).ops == s.ops
  {
    assert workflow !in s.spawned ==> s.spawned - {workflow} == s.spawned;
  }

  lemma StepKeepsPlaces(s: State, e: Event)
    requires Placed(s) && Enabled(s, e) && InTurn(s, e)
    ensures Placed(Step(s, e)) && Sound(s, e)
  {
    var t := Step(s, e);
    match e
    case Delegate(op, _) => OpMoves(s, t, op, t.ops[op]);
    case Acquired(op) => OpMoves(s, t, op, t.ops[op]);
    case WaitCancelled(op) => OpEnds(s, t, op);
    case Spawned(op) => OpMoves(s, t, op, t.ops[op]);
    case SpawnFails(op) => OpEnds(s, t, op);
    case PreviousStopped(op) => OpMoves(s, t, op, t.ops[op]);
    case PreviousStopCancelled(op) => OpEnds(s, t, op);
    case SendSucceeds(op) => OpEnds(s, t, op);
    case SendFails(op) => OpMoves(s, t, op, t.ops[op]);
    case SendCancelled(op) => OpEnds(s, t, op);
    case OwnStopEnds(op) => OpEnds(s, t, op);
    case Terminate(workflow) =>
      TerminateLeaves(s, workflow);
      IdleLeaves(s, t, workflow);
    case CloseBegins =>
    case CloseNext(workflow) =>
      TerminateLeaves(s, workflow);
      IdleLeaves(s, t, workflow);
  }

  lemma StepKeepsInv(maxConcurrent: nat, s: State, e: Event)
    requires Inv(maxConcurrent, s) && Enabled(s, e) && InTurn(s, e)
    ensures Inv(maxConcurrent, Step(s, e)) && Sound(s, e)
  {
    StepKeepsPlaces(s, e);
    StepExact(s, e);
  }

  /** Free permits, live workflows and coroutines that hold a slot always add up to the cap, through
      every failure, cancellation, re-delegation and termination. */
  lemma {:induction false} SlotsConserved(maxConcurrent: nat, s: State, es: seq<Event>)
    requires Inv(maxConcurrent, s) && EnabledRun(s, es) && InTurnRun(s, es)
    ensures Inv(maxConcurrent, Run(s, es)) && SoundRun(s, es)
    decreases |es|
  {
    if es != [] {
      StepKeepsInv(maxConcurrent, s, es[0]);
      SlotsConserved(maxConcurrent, Step(s, es[0]), es[1..]);
    }
  }

  /** The cap is never exceeded, and once nothing is in progress every slot is free or live. */
  lemma CapHolds(maxConcurrent: nat, es: seq<Event>)
    requires EnabledRun(Initial(maxConcurrent), es) && InTurnRun(Initial(maxConcurrent), es)
    ensures var s := Run(Initial(maxConcurrent), es);
      && s.permits + |s.spawned| + |Holders(s.ops)| == maxConcurrent
      && |s.spawned| <= maxConcurrent
      && (s.ops == map[] ==> s.permits == maxConcurrent - |s.spawned|)
  {
    var s0 := Initial(maxConcurrent);
    assert Holders(s0.ops) == {};
    SlotsConserved(maxConcurrent, s0, es);
    var s := Run(s0, es);
    if s.ops == map[] {
      assert Holders(s.ops) == {};
    }
  }

  // ---- agents are stopped ------------------------------------------------------------------------

  predicate Live(spawned: map<WorkflowId, AgentId>, agent: AgentId) {
    exists workflow :: workflow in spawned && spawned[workflow] == agent
  }

  /** The agent that a coroutine has installed. */
  predicate Carries(phase: Phase, agent: AgentId) {
    match phase
    case Waiting => false
    case Spawning(_) => false
    case StoppingPrevious(a) => a == agent
    case Sending(a) => a == agent
    case StoppingOwn(a, _) => a == agent
  }

  ghost predicate AgentsKnown(s: State) {
    && (forall workflow :: workflow in s.spawned ==> s.spawned[workflow] < s.nextAgent)
    && (forall u, v :: u in s.spawned && v in s.spawned && s.spawned[u] == s.spawned[v] ==> u == v)
    && (forall op, agent: AgentId :: op in s.ops && Carries(s.ops[op].phase, agent) ==>
          && agent < s.nextAgent
          && (forall workflow :: workflow in s.spawned && s.spawned[workflow] == agent ==> workflow == s.ops[op].workflow))
  }

  /** Exactly the agents that are no longer live have been told to stop. */
  ghost predicate StopsExact(s: State) {
    forall agent: AgentId :: s.stopped[agent] > 0 <==> agent < s.nextAgent && !Live(s.spawned, agent)
  }

  lemma InstallKeepsStops(s: State, op: OpId)
    requires AgentsKnown(s) && StopsExact(s) && op in s.ops
    ensures StopsExact(Install(s, op))
  {
    var (t, workflow) := (Install(s, op), s.ops[op].workflow);
    forall agent: AgentId
      ensures t.stopped[agent] > 0 <==> agent < t.nextAgent && !Live(t.spawned, agent)
    {
      assert t.spawned[workflow] == s.nextAgent;
      if w :| w in s.spawned && s.spawned[w] == agent && w != workflow {
        assert w in t.spawned && t.spawned[w] == agent;
      }
    }
  }

  lemma RemovalKeepsStops(s: State, t: State, workflow: WorkflowId)
    requires AgentsKnown(s) && StopsExact(s) && workflow in s.spawned
    requires t.spawned == s.spawned - {workflow} && t.nextAgent == s.nextAgent
    requires t.stopped == s.stopped + multiset{s.spawned[workflow]}
    ensures StopsExact(t)
  {
    forall agent: AgentId
      ensures t.stopped[agent] > 0 <==> agent < t.nextAgent && !Live(t.spawned, agent)
    {
      if w :| w in s.spawned && s.spawned[w] == agent && w != workflow {
        assert w in t.spawned && t.spawned[w] == agent;
      }
    }
  }

  lemma GiveUpKeepsStops(s: State, op: OpId)
    requires AgentsKnown(s) && StopsExact(s) && op in s.ops && s.ops[op].phase.Sending?
    ensures StopsExact(GiveUp(s, op))
  {
    var (t, workflow, agent) := (GiveUp(s, op), s.ops[op].workflow, s.ops[op].phase.agent);
    assert Carries(s.ops[op].phase, agent);
    if workflow in s.spawned && s.spawned[workflow] == agent {
      RemovalKeepsStops(s, t, workflow);
    } else {
      assert !Live(s.spawned, agent);
    }
  }

  /** A step goes on with one coroutine at most. */
  function OpOf(e: Event): set<OpId> {
    match e
    case Terminate(_) => {}
    case CloseBegins => {}
    case CloseNext(_) => {}
    case _ => {e.op}
  }

  lemma OthersGoOn(s: State, e: Event, op: OpId)
    requires Enabled(s, e) && op !in OpOf(e)
    ensures op in Step(s, e).ops <==> op in s.ops
    ensures op in s.ops ==> Step(s, e).ops[op] == s.ops[op]
  {
    match e
    case Delegate(_, _) =>
    case Spawned(_) =>
    case SendFails(_) =>
    case CloseNext(_) =>
    case _ =>
  }

  lemma OwnGoesOn(s: State, e: Event, op: OpId, agent: AgentId)
    requires Enabled(s, e) && op in OpOf(e) && op in Step(s, e).ops
    ensures op in s.ops && !e.Spawned? ==>
      Step(s, e).ops[op].workflow == s.ops[op].workflow
      && (Carries(Step(s, e).ops[op].phase, agent) <==> Carries(s.ops[op].phase, agent))
    ensures op !in s.ops ==> !Carries(Step(s, e).ops[op].phase, agent)
    ensures e.Spawned? ==>
      && op in s.ops && Step(s, e).ops[op].workflow == s.ops[op].workflow && !Carries(s.ops[op].phase, agent)
      && (Carries(Step(s, e).ops[op].phase, agent) <==> agent == s.nextAgent)
  {
    match e
    case Delegate(_, _) =>
    case Acquired(_) =>
    case Spawned(_) =>
    case PreviousStopped(_) =>
    case SendFails(_) =>
    case _ =>
  }

  /** What a coroutine carries it carried before, unless it has just installed it. */
  lemma CarriedBefore(s: State, e: Event, op: OpId, agent: AgentId)
    requires Enabled(s, e) && op in Step(s, e).ops && Carries(Step(s, e).ops[op].phase, agent)
    ensures op in s.ops && Step(s, e).ops[op].workflow == s.ops[op].workflow
    ensures Carries(s.ops[op].phase, agent) || (e == Spawned(op) && agent == s.nextAgent)
  {
    if op in OpOf(e) {
      OwnGoesOn(s, e, op, agent);
    } else {
      OthersGoOn(s, e, op);
    }
    hide Step, Carries;
  }

  /** A coroutine never changes the agent it installed, whatever is going on beside it. */
  lemma AgentIsKept(s: State, e: Event, op: OpId, agent: AgentId)
    requires Enabled(s, e) && op in s.ops && Carries(s.ops[op].phase, agent) && op in Step(s, e).ops
    ensures Carries(Step(s, e).ops[op].phase, agent) && Step(s, e).ops[op].workflow == s.ops[op].workflow
  {
    if op in OpOf(e) {
      OwnGoesOn(s, e, op, agent);
    } else {
      OthersGoOn(s, e, op);
    }
    hide Step, Carries;
  }

  lemma StepKeepsKnown(s: State, e: Event)
    requires AgentsKnown(s) && Enabled(s, e)
    ensures AgentsKnown(Step(s, e))
  {
    var t := Step(s, e);
    forall op, agent: AgentId | op in t.ops && Carries(t.ops[op].phase, agent)
      ensures agent < t.nextAgent
      ensures forall workflow :: workflow in t.spawned && t.spawned[workflow] == agent ==> workflow == t.ops[op].workflow
    {
      CarriedBefore(s, e, op, agent);
    }
  }

  lemma StepKeepsStops(s: State, e: Event)
    requires AgentsKnown(s) && StopsExact(s) && Enabled(s, e)
    ensures StopsExact(Step(s, e))
  {
    match e
    case Spawned(op) => InstallKeepsStops(s, op);
    case SendFails(op) => GiveUpKeepsStops(s, op);
    case Terminate(workflow) =>
      if workflow in s.spawned {
        RemovalKeepsStops(s, Step(s, e), workflow);
      }
    case CloseNext(workflow) =>
      if workflow in s.spawned {
        RemovalKeepsStops(s, Step(s, e), workflow);
      }
    case _ =>
      assert Step(s, e).spawned == s.spawned && Step(s, e).stopped == s.stopped && Step(s, e).nextAgent == s.nextAgent;
  }

  lemma {:induction false} RunKeepsStops(s: State, es: seq<Event>)
    requires AgentsKnown(s) && StopsExact(s) && EnabledRun(s, es)
    ensures AgentsKnown(Run(s, es)) && StopsExact(Run(s, es))
    decreases |es|
  {
    if es != [] {
      StepKeepsKnown(s, es[0]);
      StepKeepsStops(s, es[0]);
      RunKeepsStops(Step(s, es[0]), es[1..]);
    }
  }

  /** In every run, interleaved in any way: an agent that was spawned is live, or has been told to stop, and never both; and
      an agent is live under one workflow only. */
  lemma StoppedExactly(maxConcurrent: nat, es: seq<Event>, agent: AgentId)
    requires EnabledRun(Initial(maxConcurrent), es)
    ensures var s := Run(Initial(maxConcurrent), es);
      && (s.stopped[agent] > 0 <==> agent < s.nextAgent && !Live(s.spawned, agent))
      && (forall u, v :: u in s.spawned && v in s.spawned && s.spawned[u] == s.spawned[v] == agent ==> u == v)
  {
    RunKeepsStops(Initial(maxConcurrent), es);
  }

  // ---- whole delegations -------------------------------------------------------------------------

  lemma Unroll(s: State, es: seq<Event>, t: State)
    requires |es| > 0 && Enabled(s, es[0]) && t == Step(s, es[0]) && EnabledRun(t, es[1..])
    ensures EnabledRun(s, es) && Run(s, es) == Run(t, es[1..])
  {
  }

  /** One permit less, and a new agent that is live and whose assignment is being sent. */
  function Dispatched(s: State, op: OpId, workflow: WorkflowId): State
    requires s.permits > 0
  {
    s.(permits := s.permits - 1, spawned := s.spawned[workflow := s.nextAgent],
       ops := s.ops[op := Op(workflow, Sending(s.nextAgent))], nextAgent := s.nextAgent + 1)
  }

  lemma FirstSteps(s: State, op: OpId, workflow: WorkflowId)
    requires op !in s.ops && workflow !in s.spawned && s.permits > 0
    ensures var (s1, begun) := (Step(s, Delegate(op, workflow)), Enabled(s, Delegate(op, workflow)));
      && begun && Enabled(s1, Acquired(op)) && Enabled(Step(s1, Acquired(op)), Spawned(op))
      && Step(Step(s1, Acquired(op)), Spawned(op)) == Dispatched(s, op, workflow)
  {
  }

  lemma UpToSending(s: State, op: OpId, workflow: WorkflowId, rest: seq<Event>)
    requires op !in s.ops && workflow !in s.spawned && s.permits > 0 && EnabledRun(Dispatched(s, op, workflow), rest)
    ensures var es := [Delegate(op, workflow), Acquired(op), Spawned(op)] + rest;
      EnabledRun(s, es) && Run(s, es) == Run(Dispatched(s, op, workflow), rest)
  {
    FirstSteps(s, op, workflow);
    hide Step, Enabled, Dispatched;
    var es := [Delegate(op, workflow), Acquired(op), Spawned(op)] + rest;
    assert es[3..] == rest && es[2..][1..] == es[3..] && es[1..][1..] == es[2..];
    var s1 := Step(s, es[0]);
    var s2 := Step(s1, es[1]);
    Unroll(s2, es[2..], Dispatched(s, op, workflow));
    Unroll(s1, es[1..], s2);
    Unroll(s, es, s1);
  }

  lemma SuccessLives(s: State, op: OpId, workflow: WorkflowId)
    requires op !in s.ops && workflow !in s.spawned && s.permits > 0
    ensures var t := Dispatched(s, op, workflow);
      && Enabled(t, SendSucceeds(op))
      && Step(t, SendSucceeds(op)) == t.(ops := s.ops)
      && Step(t.(ops := s.ops), Terminate(workflow))
         == s.(nextAgent := s.nextAgent + 1, stopped := s.stopped + multiset{s.nextAgent})
  {
    var t := Dispatched(s, op, workflow);
    assert t.ops - {op} == s.ops;
    assert t.spawned - {workflow} == s.spawned;
  }

  /** An undisturbed delegation of a new workflow costs one permit and leaves its agent live; terminating it gives the
      permit back and stops that agent. */
  lemma DelegationLives(s: State, op: OpId, workflow: WorkflowId)
    requires op !in s.ops && workflow !in s.spawned && s.permits > 0
    ensures var es := [Delegate(op, workflow), Acquired(op), Spawned(op)] + [SendSucceeds(op)];
      && EnabledRun(s, es)
      && Run(s, es) == s.(permits := s.permits - 1, spawned := s.spawned[workflow := s.nextAgent],
                          nextAgent := s.nextAgent + 1)
      && Step(Run(s, es), Terminate(workflow))
         == s.(nextAgent := s.nextAgent + 1, stopped := s.stopped + multiset{s.nextAgent})
  {
    var t := Dispatched(s, op, workflow);
    SuccessLives(s, op, workflow);
    hide Step, Enabled;
    Unroll(t, [SendSucceeds(op)], t.(ops := s.ops));
    UpToSending(s, op, workflow, [SendSucceeds(op)]);
  }

  lemma FailureUndone(s: State, op: OpId, workflow: WorkflowId)
    requires op !in s.ops && workflow !in s.spawned && s.permits > 0
    ensures var t := Dispatched(s, op, workflow);
      && Enabled(t, SendFails(op)) && Enabled(Step(t, SendFails(op)), OwnStopEnds(op))
      && Step(Step(t, SendFails(op)), OwnStopEnds(op))
         == s.(nextAgent := s.nextAgent + 1, stopped := s.stopped + multiset{s.nextAgent})
  {
    var t := Dispatched(s, op, workflow);
    assert t.spawned - {workflow} == s.spawned;
    assert Step(t, SendFails(op)).ops - {op} == s.ops;
  }

  /** A delegation whose assignment cannot be sent gives everything back, and stops the agent it spawned. */
  lemma FailedDelegationUndone(s: State, op: OpId, workflow: WorkflowId)
    requires op !in s.ops && workflow !in s.spawned && s.permits > 0
    ensures var es := [Delegate(op, workflow), Acquired(op), Spawned(op)] + [SendFails(op), OwnStopEnds(op)];
      && EnabledRun(s, es)
      && Run(s, es) == s.(nextAgent := s.nextAgent + 1, stopped := s.stopped + multiset{s.nextAgent})
  {
    var rest := [SendFails(op), OwnStopEnds(op)];
    var t := Dispatched(s, op, workflow);
    var u := Step(t, SendFails(op));
    FailureUndone(s, op, workflow);
    assert rest[1..] == [OwnStopEnds(op)];
    hide Step;
    Unroll(u, rest[1..], Step(u, OwnStopEnds(op)));
    Unroll(t, rest, u);
    UpToSending(s, op, workflow, rest);
  }

  /** A delegation that is cancelled while it waits, or whose agent cannot be spawned, leaves no trace. */
  lemma EarlyFailureUndone(s: State, op: OpId, workflow: WorkflowId)
    requires op !in s.ops && workflow !in s.spawned && s.permits > 0
    ensures Step(Step(s, Delegate(op, workflow)), WaitCancelled(op)) == s
    ensures var t := Step(Step(s, Delegate(op, workflow)), Acquired(op));
      t.permits == s.permits - 1 && Step(t, SpawnFails(op)) == s
  {
    var t := Step(s, Delegate(op, workflow));
    assert t.ops - {op} == s.ops;
    assert Step(t, Acquired(op)).ops - {op} == s.ops;
  }

  /** Delegating a live workflow again takes no permit: the new agent takes the place of the old one, which is stopped. */
  lemma RedelegationReplaces(s: State, op: OpId, workflow: WorkflowId)
    requires op !in s.ops && workflow in s.spawned
    ensures var t := Step(Step(s, Delegate(op, workflow)), Spawned(op));
      && t.permits == s.permits && t.spawned == s.spawned[workflow := s.nextAgent]
      && t.stopped == s.stopped + multiset{s.spawned[workflow]}
      && Enabled(t, PreviousStopped(op)) && Enabled(Step(t, PreviousStopped(op)), SendSucceeds(op))
      && Step(Step(t, PreviousStopped(op)), SendSucceeds(op)) == t.(ops := s.ops)
  {
    var t := Step(Step(s, Delegate(op, workflow)), Spawned(op));
    assert Step(t, PreviousStopped(op)).ops - {op} == s.ops;
  }

  // ---- closing, among everything else ------------------------------------------------------------

  /** Every agent older than `n` is still on the list of `close`. */
  predicate OldAreListed(s: State, n: AgentId) {
    forall workflow :: workflow in s.spawned && s.spawned[workflow] < n ==> workflow in s.closing
  }

  lemma {:induction false} RunKeepsListed(s: State, es: seq<Event>, n: AgentId)
    requires EnabledRun(s, es) && OldAreListed(s, n) && n <= s.nextAgent
    ensures OldAreListed(Run(s, es), n)
    decreases |es|
  {
    if es != [] {
      assert OldAreListed(Step(s, es[0]), n);
      RunKeepsListed(Step(s, es[0]), es[1..], n);
    }
  }

  /** Whatever else happens between its steps, overlapping or not: when `close` has worked through its list, no agent
      that was installed before it began is live. */
  lemma CloseStopsAgents(s: State, es: seq<Event>)
    requires EnabledRun(Step(s, CloseBegins), es) && Run(Step(s, CloseBegins), es).closing == {}
    ensures var t := Run(Step(s, CloseBegins), es);
      forall workflow :: workflow in t.spawned ==> t.spawned[workflow] >= s.nextAgent
  {
    RunKeepsListed(Step(s, CloseBegins), es, s.nextAgent);
  }
}

/** Overlapping operations on one workflow. */
module DelegationRuns {
  import opened DelegationModel
  import opened DelegationProofs

  /** A workflow is terminated while its assignment is being sent, and the send then fails: the slot is
      released twice, and a cap of one admits two live workflows. */
  const DOUBLE_RELEASE: seq<Event> := [
    Delegate(0, "w"), Acquired(0), Spawned(0), Terminate("w"), SendFails(0), OwnStopEnds(0),
    Delegate(1, "u"), Acquired(1), Spawned(1), Delegate(2, "v"), Acquired(2), Spawned(2)]

  const FIRST_LIVE := State(1, map["u" := 1], map[1 := Op("u", Sending(1))], 2, {}, multiset{0, 0})

  lemma DoubleReleaseEnd()
    ensures EnabledRun(FIRST_LIVE, DOUBLE_RELEASE[9..])
    ensures |Run(FIRST_LIVE, DOUBLE_RELEASE[9..]).spawned| == 2
  {
    var es := DOUBLE_RELEASE;
    var u := Op("u", Sending(1));
    var s10 := State(1, map["u" := 1], map[1 := u, 2 := Op("v", Waiting)], 2, {}, multiset{0, 0});
    var s11 := State(0, map["u" := 1], map[1 := u, 2 := Op("v", Spawning(true))], 2, {}, multiset{0, 0});
    var s12 := Step(s11, Spawned(2));
    SizeAfterInstall(map[], "u", 1);
    SizeAfterInstall(map["u" := 1], "v", 2);
    Unroll(s11, es[11..], s12);
    Unroll(s10, es[10..], s11);
    Unroll(FIRST_LIVE, es[9..], s10);
  }

  lemma DoubleReleaseTail()
    ensures EnabledRun(State(2, map[], map[], 1, {}, multiset{0, 0}), DOUBLE_RELEASE[6..])
    ensures |Run(State(2, map[], map[], 1, {}, multiset{0, 0}), DOUBLE_RELEASE[6..]).spawned| == 2
  {
    DoubleReleaseEnd();
    var es := DOUBLE_RELEASE;
    var s6 := State(2, map[], map[], 1, {}, multiset{0, 0});
    var s7 := State(2, map[], map[1 := Op("u", Waiting)], 1, {}, multiset{0, 0});
    var s8 := State(1, map[], map[1 := Op("u", Spawning(true))], 1, {}, multiset{0, 0});
    Unroll(s8, es[8..], FIRST_LIVE);
    Unroll(s7, es[7..], s8);
    Unroll(s6, es[6..], s7);
  }

  const SENDING_ONLY := State(0, map["w" := 0], map[0 := Op("w", Sending(0))], 1, {}, multiset{})

  lemma DoubleReleaseMiddle()
    ensures EnabledRun(SENDING_ONLY, DOUBLE_RELEASE[3..])
    ensures |Run(SENDING_ONLY, DOUBLE_RELEASE[3..]).spawned| == 2
  {
    DoubleReleaseTail();
    var es := DOUBLE_RELEASE;
    var s4 := State(1, map[], map[0 := Op("w", Sending(0))], 1, {}, multiset{0});
    var s5 := State(1, map[], map[0 := Op("w", StoppingOwn(0, false))], 1, {}, multiset{0, 0});
    var s6 := State(2, map[], map[], 1, {}, multiset{0, 0});
    assert Step(SENDING_ONLY, es[3]).spawned == map[];
    assert Step(s5, es[5]).ops == map[];
    Unroll(s5, es[5..], s6);
    Unroll(s4, es[4..], s5);
    Unroll(SENDING_ONLY, es[3..], s4);
  }

  lemma ToSending()
    ensures TakePermit(BeginDelegate(Initial(1), 0, "w"), 0).ops == map[0 := Op("w", Spawning(true))]
    ensures Install(TakePermit(BeginDelegate(Initial(1), 0, "w"), 0), 0) == SENDING_ONLY
  {
  }

  lemma DoubleReleaseBreaksCap()
    ensures EnabledRun(Initial(1), DOUBLE_RELEASE)
    ensures |Run(Initial(1), DOUBLE_RELEASE).spawned| == 2
  {
    DoubleReleaseMiddle();
    ToSending();
    var s1 := BeginDelegate(Initial(1), 0, "w");
    var s2 := TakePermit(s1, 0);
    Unroll(s2, DOUBLE_RELEASE[2..], SENDING_ONLY);
    Unroll(s1, DOUBLE_RELEASE[1..], s2);
    assert DOUBLE_RELEASE[0..] == DOUBLE_RELEASE;
    Unroll(Initial(1), DOUBLE_RELEASE, s1);
  }

  /** A workflow is delegated again while its failed first agent is still being stopped: the first slot
      is never released. */
  const LOST_SLOT: seq<Event> := [
    Delegate(0, "w"), Acquired(0), Spawned(0), SendFails(0),
    Delegate(1, "w"), Acquired(1), Spawned(1), SendSucceeds(1), OwnStopEnds(0)]

  const FIRST_STOPPING := Op("w", StoppingOwn(0, true))
  const AFTER_FAILED_SEND := State(1, map[], map[0 := FIRST_STOPPING], 1, {}, multiset{0})

  lemma LostSlotTail()
    ensures EnabledRun(AFTER_FAILED_SEND, LOST_SLOT[4..])
    ensures Run(AFTER_FAILED_SEND, LOST_SLOT[4..]) == State(0, map["w" := 1], map[], 2, {}, multiset{0})
  {
    var es := LOST_SLOT;
    var s5 := State(1, map[], map[0 := FIRST_STOPPING, 1 := Op("w", Waiting)], 1, {}, multiset{0});
    var s6 := State(0, map[], map[0 := FIRST_STOPPING, 1 := Op("w", Spawning(true))], 1, {}, multiset{0});
    var s7 := State(0, map["w" := 1], map[0 := FIRST_STOPPING, 1 := Op("w", Sending(1))], 2, {}, multiset{0});
    var s8 := State(0, map["w" := 1], map[0 := FIRST_STOPPING], 2, {}, multiset{0});
    var s9 := State(0, map["w" := 1], map[], 2, {}, multiset{0});
    assert Step(s7, es[7]).ops == s8.ops;
    assert Step(s8, es[8]).ops == map[];
    Unroll(s8, es[8..], s9);
    Unroll(s7, es[7..], s8);
    Unroll(s6, es[6..], s7);
    Unroll(s5, es[5..], s6);
    Unroll(AFTER_FAILED_SEND, es[4..], s5);
  }

  lemma LostSlotLeavesNoPermit()
    ensures EnabledRun(Initial(2), LOST_SLOT)
    ensures Run(Initial(2), LOST_SLOT) == State(0, map["w" := 1], map[], 2, {}, multiset{0})
  {
    LostSlotTail();
    var es := LOST_SLOT;
    var s1 := State(2, map[], map[0 := Op("w", Waiting)], 0, {}, multiset{});
    var s2 := State(1, map[], map[0 := Op("w", Spawning(true))], 0, {}, multiset{});
    var s3 := State(1, map["w" := 0], map[0 := Op("w", Sending(0))], 1, {}, multiset{});
    assert Step(s3, es[3]).spawned == map[];
    Unroll(s3, es[3..], AFTER_FAILED_SEND);
    Unroll(s2, es[2..], s3);
    Unroll(s1, es[1..], s2);
    Unroll(Initial(2), es[0..], s1);
    assert es[0..] == es;
  }
}

/** The manager object; each method is the code between two awaits. */
module DelegationService {
  import opened DelegationModel

  lemma OneLess(spawned: map<WorkflowId, AgentId>, workflow: WorkflowId)
    ensures (spawned - {workflow}).Keys == spawned.Keys - {workflow}
    ensures |(spawned - {workflow}).Keys| == |spawned.Keys| - if workflow in spawned then 1 else 0
  {
    assert (spawned - {workflow}).Keys == spawned.Keys - {workflow};
  }

  class DelegationManager {
    const maxSpawnDepth: int
    var permits: nat
    var spawned: map<WorkflowId, AgentId>
    var ops: map<OpId, Op>
    var nextAgent: AgentId
    var closing: set<WorkflowId>
    ghost var stopped: multiset<AgentId>

    ghost function View(): State
      reads this
    {
      State(permits, spawned, ops, nextAgent, closing, stopped)
    }

    constructor (maxConcurrent: nat, maxSpawnDepth: int)
      ensures View() == Initial(maxConcurrent) && this.maxSpawnDepth == maxSpawnDepth
    {
      this.maxSpawnDepth := maxSpawnDepth;
      permits, spawned, ops, nextAgent, closing := maxConcurrent, map[], map[], 0, {};
      stopped := multiset{};
    }

    method Delegate(op: OpId, workflow: WorkflowId) returns (refused: bool)
      modifies this
      ensures refused <==> maxSpawnDepth < 1
      ensures View() == if refused then old(View()) else BeginDelegate(old(View()), op, workflow)
    {
      refused := maxSpawnDepth < 1;
      if !refused {
        var acquire := workflow !in spawned;
        ops := ops[op := Op(workflow, if acquire then Waiting else Spawning(false))];
      }
    }

    method OnAcquired(op: OpId)
      requires op in ops && permits > 0
      modifies this
      ensures View() == TakePermit(old(View()), op)
    {
      permits := permits - 1;
      ops := ops[op := ops[op].(phase := Spawning(true))];
    }

    method OnSpawned(op: OpId)
      requires op in ops
      modifies this
      ensures View() == Install(old(View()), op)
    {
      var workflow, agent := ops[op].workflow, nextAgent;
      nextAgent := nextAgent + 1;
      var redelegated := workflow in spawned;
      if redelegated {
        stopped := stopped + multiset{spawned[workflow]};
      }
      spawned := spawned[workflow := agent];
      ops := ops[op := ops[op].(phase := if redelegated then StoppingPrevious(agent) else Sending(agent))];
    }

    method OnSendFailed(op: OpId)
      requires op in ops && ops[op].phase.Sending?
      modifies this
      ensures View() == GiveUp(old(View()), op)
    {
      var workflow, agent := ops[op].workflow, ops[op].phase.agent;
      var popped := workflow in spawned && spawned[workflow] == agent;
      if popped {
        spawned := spawned - {workflow};
      }
      stopped := stopped + multiset{agent};
      ops := ops[op := ops[op].(phase := StoppingOwn(agent, popped))];
    }

    /** `except BaseException`: reached by spawn failures, failed sends and every cancellation. */
    method OnUnwind(op: OpId)
      requires op in ops
      modifies this
      ensures View() == Unwind(old(View()), op)
    {
      if ops[op].workflow !in spawned {
        permits := permits + 1;
      }
      ops := ops - {op};
    }

    method Terminate(workflow: WorkflowId)
      modifies this`spawned, this`permits, this`stopped
      ensures View() == TerminateWorkflow(old(View()), workflow)
    {
      if workflow !in spawned {
        return;
      }
      stopped := stopped + multiset{spawned[workflow]};
      spawned := spawned - {workflow};
      permits := permits + 1;
    }

    /** The list that `close` takes of the live workflows. */
    method BeginClose()
      modifies this`closing
      ensures View() == Step(old(View()), CloseBegins)
      ensures closing == old(closing) + spawned.Keys
    {
      closing := closing + spawned.Keys;
    }

    /** One turn of its loop. */
    method CloseOne(workflow: WorkflowId)
      requires workflow in closing
      modifies this`closing, this`spawned, this`permits, this`stopped
      ensures View() == Step(old(View()), CloseNext(workflow))
      ensures closing == old(closing) - {workflow} && spawned == old(spawned) - {workflow}
      ensures permits == old(permits) + if workflow in old(spawned) then 1 else 0
    {
      closing := closing - {workflow};
      Terminate(workflow);
    }

    /** The whole loop, with nothing else in progress: every live workflow gives back its slot. */
    method Close()
      modifies this`closing, this`spawned, this`permits, this`stopped
      ensures spawned == map[] && closing == {} && permits == old(permits) + old(|spawned|)
    {
      hide Step;
      BeginClose();
      while closing != {}
        invariant spawned.Keys <= closing
        invariant permits + |spawned.Keys| == old(permits) + old(|spawned.Keys|)
        decreases |closing|
      {
        var workflow :| workflow in closing;
        OneLess(spawned, workflow);
        CloseOne(workflow);
      }
      assert old(|spawned.Keys|) == old(|spawned|);
    }
  }
}
