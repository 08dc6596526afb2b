/** Workflow lifecycle: the dispatcher's registry and finalisation tasks, beside the delegation manager. */
module DispatcherModel {
  import D = DelegationModel
  import DP = DelegationProofs

  type WorkflowId = D.WorkflowId
  type TaskId = nat

  /** An unfinished finalisation task: still deciding, or stopping the agent of a workflow it has ended. */
  datatype Stage = Deciding | TearingDown
  datatype Finalization = Finalization(workflow: WorkflowId, stage: Stage)

  datatype Handling = Free | ReportingError(workflow: WorkflowId) | StoppingAgent

  datatype State = State(
    workflows: set<WorkflowId>,
    finalizationTasks: map<WorkflowId, TaskId>,
    unfinished: map<TaskId, Finalization>,     // every task ever created that is not done
    nextTask: TaskId,
    handling: Handling,                        // the one message the dispatch loop is busy with
    delegation: D.State)

  datatype Event =
    | RegisterWorkflow(workflow: WorkflowId)
    | TaskComplete(workflow: WorkflowId)       // the loop reads a valid task.complete
    | TaskErrorArrives(workflow: WorkflowId)   // the loop reads a valid task.error
    | TaskErrorReported                        // rendering and audit are over, successful or not
    | LoopFree                                 // the agent of the failed workflow has stopped
    | FinalizationEnds(task: TaskId, ends: bool)  // `ends`: failed, or chose a terminal action
    | Deregistered(workflow: WorkflowId)       // by a button click, or after a failed delegation
    | TornDown(task: TaskId)                   // the agent of the ended workflow has stopped
    | Delegation(event: D.Event)

  function Initial(maxConcurrent: nat): State {
    State({}, map[], map[], 0, Free, D.Initial(maxConcurrent))
  }

  predicate Enabled(s: State, e: Event) {
    match e
    case RegisterWorkflow(_) => true
    case TaskComplete(_) => s.handling.Free?
    case TaskErrorArrives(_) => s.handling.Free?
    case TaskErrorReported => s.handling.ReportingError?
    case LoopFree => s.handling.StoppingAgent?
    case FinalizationEnds(task, _) => task in s.unfinished && s.unfinished[task].stage.Deciding?
    case TornDown(task) => task in s.unfinished && s.unfinished[task].stage.TearingDown?
    case Deregistered(_) => true
    case Delegation(d) => D.Enabled(s.delegation, d)
  }

  /** Registry entry, agent handle and slot go in one step, before the agent is awaited. */
  function Deregister(s: State, workflow: WorkflowId): State {
    s.(workflows := s.workflows - {workflow}, delegation := D.TerminateWorkflow(s.delegation, workflow))
  }

  function Complete(s: State, workflow: WorkflowId): State {
    if workflow !in s.workflows then s
    else if workflow in s.finalizationTasks && s.finalizationTasks[workflow] in s.unfinished then s
    else s.(finalizationTasks := s.finalizationTasks[workflow := s.nextTask],
            unfinished := s.unfinished[s.nextTask := Finalization(workflow, Deciding)],
            nextTask := s.nextTask + 1)
  }

  function Conclude(s: State, task: TaskId, ends: bool): State
    requires task in s.unfinished
  {
    var workflow := s.unfinished[task].workflow;
    if ends then Deregister(s, workflow).(unfinished := s.unfinished[task := Finalization(workflow, TearingDown)])
    else s.(unfinished := s.unfinished - {task})
  }

  function Step(s: State, e: Event): State
    requires Enabled(s, e)
  {
    match e
    case RegisterWorkflow(workflow) => s.(workflows := s.workflows + {workflow})
    case TaskComplete(workflow) => Complete(s, workflow)
    case TaskErrorArrives(workflow) => if workflow in s.workflows then s.(handling := ReportingError(workflow)) else s
    case TaskErrorReported => Deregister(s, s.handling.workflow).(handling := StoppingAgent)
    case LoopFree => s.(handling := Free)
    case FinalizationEnds(task, ends) => Conclude(s, task, ends)
    case Deregistered(workflow) => Deregister(s, workflow)
    case TornDown(task) => s.(unfinished := s.unfinished - {task})
    case Delegation(d) => s.(delegation := D.Step(s.delegation, d))
  }

  predicate EnabledRun(s: State, es: seq<Event>)
    decreases |es|
  {
    es == [] || (Enabled(s, es[0]) && EnabledRun(Step(s, es[0]), es[1..]))
  }

  function Run(s: State, es: seq<Event>): State
    requires EnabledRun(s, es)
    decreases |es|
  {
    if es == [] then s else Run(Step(s, es[0]), es[1..])
  }

  // ---- at most one unfinished finalisation per workflow ------------------------------------------

  /** Every unfinished task is the one the table names for its workflow. */
  ghost predicate TasksNamed(s: State) {
    && (forall task :: task in s.unfinished ==>
          && task < s.nextTask
          && s.unfinished[task].workflow in s.finalizationTasks
          && s.finalizationTasks[s.unfinished[task].workflow] == task)
    && (forall workflow :: workflow in s.finalizationTasks ==>
          var task := s.finalizationTasks[workflow];
          task < s.nextTask && (task in s.unfinished ==> s.unfinished[task].workflow == workflow))
  }

  lemma {:induction false} RunKeepsTasksNamed(s: State, es: seq<Event>)
    requires TasksNamed(s) && EnabledRun(s, es)
    ensures TasksNamed(Run(s, es))
    decreases |es|
  {
    if es != [] {
      assert TasksNamed(Step(s, es[0]));
      RunKeepsTasksNamed(Step(s, es[0]), es[1..]);
    }
  }

  /** However completions, errors, deregistrations and delegations interleave. */
  lemma OneFinalizationPerWorkflow(maxConcurrent: nat, es: seq<Event>, p: TaskId, q: TaskId)
    requires EnabledRun(Initial(maxConcurrent), es)
    ensures var s := Run(Initial(maxConcurrent), es);
      p in s.unfinished && q in s.unfinished && s.unfinished[p].workflow == s.unfinished[q].workflow ==> p == q
  {
    RunKeepsTasksNamed(Initial(maxConcurrent), es);
  }

  /** Some finalisation of this workflow is not done. */
  ghost predicate InFinalization(s: State, workflow: WorkflowId) {
    exists task :: task in s.unfinished && s.unfinished[task].workflow == workflow
  }

  /** Nothing but the finalisation tasks is different, and the table still has its other entries. */
  ghost predicate OnlyTasksOf(s: State, t: State, workflow: WorkflowId) {
    && t.workflows == s.workflows && t.handling == s.handling && t.delegation == s.delegation
    && (forall other :: other != workflow ==>
          && (other in t.finalizationTasks <==> other in s.finalizationTasks)
          && (other in s.finalizationTasks ==> t.finalizationTasks[other] == s.finalizationTasks[other]))
  }

  /** A completion of a registered workflow that is not being finalised, the first or a later one, gets exactly one new
      task, which the table names; any other completion changes nothing. */
  lemma CompletionFinalizes(s: State, workflow: WorkflowId)
    requires TasksNamed(s) && Enabled(s, TaskComplete(workflow))
    ensures var t := Step(s, TaskComplete(workflow));
      if workflow in s.workflows && !InFinalization(s, workflow) then
        && s.nextTask !in s.unfinished && t.nextTask > s.nextTask
        && t.unfinished == s.unfinished[s.nextTask := Finalization(workflow, Deciding)]
        && workflow in t.finalizationTasks && t.finalizationTasks[workflow] == s.nextTask
        && OnlyTasksOf(s, t, workflow)
      else t == s
  {
  }

  /** One iteration: a completion and a finalisation that does not end the workflow leave it registered and open to the
      next completion, with no task of it left. */
  lemma IterationStaysOpen(s: State, workflow: WorkflowId)
    requires TasksNamed(s) && s.handling.Free? && workflow in s.workflows && !InFinalization(s, workflow)
    ensures var es := [TaskComplete(workflow), FinalizationEnds(s.nextTask, false)];
      && EnabledRun(s, es)
      && Run(s, es).unfinished == s.unfinished && OnlyTasksOf(s, Run(s, es), workflow)
      && workflow in Run(s, es).workflows && !InFinalization(Run(s, es), workflow)
  {
    var es := [TaskComplete(workflow), FinalizationEnds(s.nextTask, false)];
    CompletionFinalizes(s, workflow);
    var t := Step(s, es[0]);
    var u := Step(t, es[1]);
    assert es[1..] == [es[1]] && es[1..][1..] == [];
    assert Run(t, es[1..]) == Run(u, []) == u;
    assert u.unfinished == s.unfinished;
  }

  /** A finalisation that ends its workflow takes it out of the registry first and keeps its task until the agent has
      stopped; all other tasks and workflows are as before. */
  lemma TerminalFinalization(s: State, task: TaskId)
    requires Enabled(s, FinalizationEnds(task, true))
    ensures var workflow := s.unfinished[task].workflow;
      var t := Step(s, FinalizationEnds(task, true));
      && workflow !in t.workflows && t.workflows + {workflow} == s.workflows + {workflow}
      && t.unfinished == s.unfinished[task := Finalization(workflow, TearingDown)]
      && Enabled(t, TornDown(task)) && Step(t, TornDown(task)).unfinished == s.unfinished - {task}
      && Step(t, TornDown(task)).workflows == t.workflows && Step(t, TornDown(task)).delegation == t.delegation
      && t.finalizationTasks == s.finalizationTasks && t.handling == s.handling
  {
  }

  /** An error of a registered workflow is reported, ends it, and frees the loop again; the error of an unknown one
      changes nothing. */
  lemma ErrorEndsWorkflow(s: State, workflow: WorkflowId)
    requires s.handling.Free?
    ensures var es := [TaskErrorArrives(workflow), TaskErrorReported, LoopFree];
      if workflow in s.workflows then
        && EnabledRun(s, es)
        && Run(s, es) == s.(workflows := s.workflows - {workflow},
                            delegation := D.TerminateWorkflow(s.delegation, workflow))
      else Step(s, TaskErrorArrives(workflow)) == s
  {
    if workflow in s.workflows {
      var es := [TaskErrorArrives(workflow), TaskErrorReported, LoopFree];
      var t := Step(s, es[0]);
      var u := Step(t, es[1]);
      var v := Step(u, es[2]);
      assert es[1..] == [es[1], es[2]] && es[1..][1..] == [es[2]] && [es[2]][1..] == [];
      assert Run(u, [es[2]]) == Run(v, []) == v;
      assert Run(t, es[1..]) == Run(u, [es[2]]);
    }
  }

  // ---- ending a workflow -------------------------------------------------------------------------

  /** The workflow a step ends, if any. */
  function Ended(s: State, e: Event): set<WorkflowId>
    requires Enabled(s, e)
  {
    match e
    case TaskErrorReported => {s.handling.workflow}
    case FinalizationEnds(task, ends) => if ends then {s.unfinished[task].workflow} else {}
    case Deregistered(workflow) => {workflow}
    case _ => {}
  }

  lemma TerminateReleasesSlot(d: D.State, workflow: WorkflowId)
    ensures var t := D.TerminateWorkflow(d, workflow);
      && t.spawned == d.spawned - {workflow}
      && t.permits + |t.spawned| == d.permits + |d.spawned|
      && t.ops == d.ops
  {
    if workflow in d.spawned {
      DP.SizeAfterRemoval(d.spawned, workflow);
    } else {
      assert d.spawned - {workflow} == d.spawned;
    }
  }

  /** An error, a terminal action, a failed finalisation, a click or a failed delegation: in that one step the workflow
      leaves the registry, its agent handle is gone, and exactly the slot it had is free again. */
  lemma EndingReleasesSlot(s: State, e: Event, workflow: WorkflowId)
    requires Enabled(s, e) && workflow in Ended(s, e)
    ensures var t := Step(s, e);
      && t.workflows == s.workflows - {workflow}
      && t.delegation.spawned == s.delegation.spawned - {workflow}
      && t.delegation.permits + |t.delegation.spawned| == s.delegation.permits + |s.delegation.spawned|
      && t.delegation.ops == s.delegation.ops
  {
    TerminateReleasesSlot(s.delegation, workflow);
    match e
    case TaskErrorReported =>
    case FinalizationEnds(_, _) =>
    case Deregistered(_) =>
  }

  predicate Registers(es: seq<Event>, workflow: WorkflowId) {
    exists i :: 0 <= i < |es| && es[i] == RegisterWorkflow(workflow)
  }

  /** After it, until the workflow is registered again, it stays out of the registry whatever arrives, and no new
      finalisation of it begins. */
  lemma {:induction false} EndedWorkflowStaysOut(s: State, es: seq<Event>, workflow: WorkflowId)
    requires workflow !in s.workflows && EnabledRun(s, es) && !Registers(es, workflow)
    ensures workflow !in Run(s, es).workflows
    ensures forall task :: task in Run(s, es).unfinished && Run(s, es).unfinished[task].workflow == workflow ==>
      task in s.unfinished && s.unfinished[task].workflow == workflow
    decreases |es|
  {
    if es != [] {
      assert es[0] != RegisterWorkflow(workflow);
      assert forall i :: 0 <= i < |es| - 1 ==> es[1..][i] == es[i + 1];
      EndedWorkflowStaysOut(Step(s, es[0]), es[1..], workflow);
    }
  }

  // ---- slots over whole runs ---------------------------------------------------------------------

  /** Operations on one workflow's delegation are taken in turn. */
  predicate InTurn(s: State, e: Event)
    requires Enabled(s, e)
  {
    && (forall workflow :: workflow in Ended(s, e) ==> DP.Idle(s.delegation, workflow))
    && (e.Delegation? ==> DP.InTurn(s.delegation, e.event))
  }

  predicate InTurnRun(s: State, es: seq<Event>)
    requires EnabledRun(s, es)
    decreases |es|
  {
    es == [] || (InTurn(s, es[0]) && InTurnRun(Step(s, es[0]), es[1..]))
  }

  lemma StepKeepsSlots(maxConcurrent: nat, s: State, e: Event)
    requires DP.Inv(maxConcurrent, s.delegation) && Enabled(s, e) && InTurn(s, e)
    ensures DP.Inv(maxConcurrent, Step(s, e).delegation)
  {
    match e
    case TaskErrorReported => DP.StepKeepsInv(maxConcurrent, s.delegation, D.Terminate(s.handling.workflow));
    case FinalizationEnds(task, ends) =>
      if ends {
        DP.StepKeepsInv(maxConcurrent, s.delegation, D.Terminate(s.unfinished[task].workflow));
      }
    case Deregistered(workflow) => DP.StepKeepsInv(maxConcurrent, s.delegation, D.Terminate(workflow));
    case Delegation(d) => DP.StepKeepsInv(maxConcurrent, s.delegation, d);
    case _ =>
  }

  lemma {:induction false} RunKeepsSlots(maxConcurrent: nat, s: State, es: seq<Event>)
    requires DP.Inv(maxConcurrent, s.delegation) && EnabledRun(s, es) && InTurnRun(s, es)
    ensures DP.Inv(maxConcurrent, Run(s, es).delegation)
    decreases |es|
  {
    if es != [] {
      StepKeepsSlots(maxConcurrent, s, es[0]);
      RunKeepsSlots(maxConcurrent, Step(s, es[0]), es[1..]);
    }
  }

  /** The cap holds in every run of the whole system. */
  lemma LiveWorkflowsWithinCap(maxConcurrent: nat, es: seq<Event>)
    requires EnabledRun(Initial(maxConcurrent), es) && InTurnRun(Initial(maxConcurrent), es)
    ensures |Run(Initial(maxConcurrent), es).delegation.spawned| <= maxConcurrent
  {
    assert DP.Holders(D.Initial(maxConcurrent).ops) == {};
    RunKeepsSlots(maxConcurrent, Initial(maxConcurrent), es);
  }
}

/** The dispatcher object, sharing the delegation manager. */
module DispatcherService {
  import opened DispatcherModel
  import opened DelegationService

  class WorkflowDispatcher {
    const manager: DelegationManager
    var workflows: set<WorkflowId>
    var finalizationTasks: map<WorkflowId, TaskId>
    var unfinished: map<TaskId, Finalization>
    var nextTask: TaskId
    var handling: Handling

    ghost function View(): State
      reads this, manager
    {
      State(workflows, finalizationTasks, unfinished, nextTask, handling, manager.View())
    }

    constructor (manager: DelegationManager)
      ensures this.manager == manager
      ensures View() == State({}, map[], map[], 0, Free, manager.View())
    {
      this.manager := manager;
      workflows, finalizationTasks, unfinished, nextTask, handling := {}, map[], map[], 0, Free;
    }

    method RegisterWorkflow(workflow: WorkflowId)
      modifies this`workflows
      ensures View() == Step(old(View()), DispatcherModel.RegisterWorkflow(workflow))
    {
      workflows := workflows + {workflow};
    }

    method DeregisterWorkflow(workflow: WorkflowId)
      modifies this`workflows, manager
      ensures View() == Step(old(View()), Deregistered(workflow))
    {
      workflows := workflows - {workflow};
      manager.Terminate(workflow);
    }

    method HandleTaskComplete(workflow: WorkflowId)
      requires handling.Free?
      modifies this`finalizationTasks, this`unfinished, this`nextTask
      ensures View() == Step(old(View()), TaskComplete(workflow))
      ensures workflow in workflows
              && !(workflow in old(finalizationTasks) && old(finalizationTasks)[workflow] in old(unfinished)) ==>
        unfinished == old(unfinished)[old(nextTask) := Finalization(workflow, Deciding)]
    {
      if workflow !in workflows {
        return;
      }
      if workflow in finalizationTasks && finalizationTasks[workflow] in unfinished {
        return;
      }
      finalizationTasks := finalizationTasks[workflow := nextTask];
      unfinished := unfinished[nextTask := Finalization(workflow, Deciding)];
      nextTask := nextTask + 1;
    }

    method HandleTaskError(workflow: WorkflowId)
      requires handling.Free?
      modifies this`handling
      ensures View() == Step(old(View()), TaskErrorArrives(workflow))
    {
      if workflow in workflows {
        handling := ReportingError(workflow);
      }
    }

    method OnTaskErrorReported()
      requires handling.ReportingError?
      modifies this`handling, this`workflows, manager
      ensures View() == Step(old(View()), TaskErrorReported)
    {
      DeregisterWorkflow(handling.workflow);
      handling := StoppingAgent;
    }

    method OnFinalizationEnds(task: TaskId, ends: bool)
      requires task in unfinished && unfinished[task].stage.Deciding?
      modifies this`unfinished, this`workflows, manager
      ensures View() == Step(old(View()), FinalizationEnds(task, ends))
    {
      var workflow := unfinished[task].workflow;
      if ends {
        DeregisterWorkflow(workflow);
        unfinished := unfinished[task := Finalization(workflow, TearingDown)];
      } else {
        unfinished := unfinished - {task};
      }
    }
  }
}
