/** What each event does to the tables, and what becomes of a batch that was approved. */
module ApprovalEffects {
  import H = ThreadHistory
  import opened Transcript
  import opened ApprovalModel
  import opened ApprovalProofs

  // ---- single events -----------------------------------------------------------------------------

  /** The table without this thread is as it was. */
  ghost predicate OthersWait(s: State, t: State, thread: ThreadKey) {
    forall other :: other != thread ==>
      (other in s.pending <==> other in t.pending) && (other in s.pending ==> t.pending[other] == s.pending[other])
  }

  /** The runs without this one are as they were. */
  ghost predicate OthersRun(s: State, t: State, op: OpId) {
    forall other :: other != op ==>
      (other in s.ops <==> other in t.ops) && (other in s.ops ==> t.ops[other] == s.ops[other])
  }

  /** A click on Approve opens a new run that holds exactly the batch that waited, for the turn it was paused in; nothing
      is executed yet. */
  lemma ApproveGrants(cfg: Config, s: State, thread: ThreadKey)
    requires cfg.hasLoop && CarriesMessage(s) && thread in s.pending
    ensures var (t, b) := (Step(cfg, s, Approve(thread)), s.pending[thread]);
      && s.nextOp !in s.ops && t.ops == s.ops[s.nextOp := Op(thread, b.turn, b.text, Granted(b))]
      && b.id in t.log.fates && t.log.fates[b.id] == Approved(s.nextOp)
      && thread !in t.pending && OthersWait(s, t, thread)
      && t.log.executed == s.log.executed && t.log.endings == s.log.endings && t.history == s.history
  {
  }

  /** Without tools the same click ends the turn, and nothing is granted. */
  lemma UnavailableDiscards(cfg: Config, s: State, thread: ThreadKey)
    requires !cfg.hasLoop && thread in s.pending
    ensures var (t, b) := (Step(cfg, s, Approve(thread)), s.pending[thread]);
      && thread !in t.pending && OthersWait(s, t, thread) && t.ops == s.ops && t.history == s.history
      && b.id in t.log.fates && t.log.fates[b.id] == Unavailable
      && b.turn in t.log.endings && t.log.endings[b.turn] == Dropped && t.log.executed == s.log.executed
  {
  }

  /** A message opens a run of its own for a new turn, and takes the place of whatever waited on its thread. */
  lemma ArrivalOpensRun(cfg: Config, s: State, thread: ThreadKey, text: string)
    requires CarriesMessage(s)
    ensures var t := Step(cfg, s, Arrive(thread, text));
      && s.nextOp !in s.ops && t.ops == s.ops[s.nextOp := Op(thread, |s.log.messages|, text, Thinking)]
      && t.log.messages == s.log.messages + [ApprovalModel.Message(thread, text)]
      && thread !in t.pending && OthersWait(s, t, thread)
      && t.log.executed == s.log.executed && t.log.commits == s.log.commits
  {
  }

  /** A run that pauses leaves its calls under its thread, with the turn and the text it ran for. */
  lemma PauseWaits(cfg: Config, s: State, op: OpId, calls: seq<ToolCall>)
    requires Enabled(cfg, s, Pause(op, calls))
    ensures var (t, o) := (Step(cfg, s, Pause(op, calls)), s.ops[op]);
      && o.thread in t.pending && t.pending[o.thread] == Batch(|s.log.paused|, calls, o.turn, o.text)
      && op !in t.ops && OthersRun(s, t, op) && OthersWait(s, t, o.thread)
      && t.log.executed == s.log.executed && t.log.commits == s.log.commits && t.history == s.history
  {
  }

  /** What waits is undecided, and its turn is not over. */
  lemma WaitingIsOpen(s: State, thread: ThreadKey)
    requires TurnsPlaced(s) && BatchesPlaced(s) && thread in s.pending
    ensures s.pending[thread].id !in s.log.fates && s.pending[thread].turn !in s.log.endings
  {
    var b := s.pending[thread];
    assert BatchAt(s, b.id, Waiting(thread)) && TurnAt(s, b.turn, InTable(thread));
    assert !BatchAt(s, b.id, Met) && !TurnAt(s, b.turn, Over);
  }

  /** A granted run executes the calls of its batch, once, and goes on thinking. */
  lemma ExecutionRunsBatch(cfg: Config, s: State, op: OpId)
    requires GrantsExact(s) && Enabled(cfg, s, Execute(op))
    ensures var (t, b) := (Step(cfg, s, Execute(op)), s.ops[op].phase.batch);
      && t.log.executed == s.log.executed + [Execution(op, b.id, s.log.paused[b.id])]
      && (forall x :: x in s.log.executed ==> x.batch != b.id)
      && op in t.ops && t.ops[op] == s.ops[op].(phase := Thinking) && OthersRun(s, t, op) && t.pending == s.pending
  {
  }

  /** An answer ends its run: it is committed for the run's own turn, and is the last thing its thread remembers. */
  lemma AnswerIsRemembered(cfg: Config, s: State, op: OpId, reply: string)
    requires Enabled(cfg, s, Answer(op, reply)) && cfg.maxHistory >= 1
    ensures var (t, o) := (Step(cfg, s, Answer(op, reply)), s.ops[op]);
      && t.log.commits == s.log.commits + [Commit(o.turn, o.thread, o.text, reply)]
      && |H.Of(t.history, o.thread)| > 0
      && H.Of(t.history, o.thread)[|H.Of(t.history, o.thread)| - 1] == H.FromAssistant(reply)
      && op !in t.ops && OthersRun(s, t, op) && t.pending == s.pending
      && o.turn in t.log.endings && t.log.endings[o.turn] == Committed
  {
    var o := s.ops[op];
    var snapshot := H.Snapshot(cfg.maxHistory, s.history, o.thread, o.text);
    H.CappedIsLast(cfg.maxHistory, snapshot + [H.FromAssistant(reply)]);
    hide H.Snapshot, H.Capped;
  }

  /** A failure ends its run and touches nothing else. */
  lemma FailureEndsRun(cfg: Config, s: State, op: OpId)
    requires Enabled(cfg, s, Fail(op))
    ensures var t := Step(cfg, s, Fail(op));
      && op !in t.ops && OthersRun(s, t, op) && t.pending == s.pending && op in t.log.failed
      && s.ops[op].turn in t.log.endings && t.log.endings[s.ops[op].turn] == Failed
      && t.log.executed == s.log.executed && t.log.commits == s.log.commits && t.history == s.history
  {
  }

  // ---- what becomes of an approval ---------------------------------------------------------------

  predicate Executed(log: Log, id: BatchId, op: OpId) {
    id < |log.paused| && Execution(op, id, log.paused[id]) in log.executed
  }

  predicate Held(s: State, id: BatchId, op: OpId) {
    op in s.ops && s.ops[op].phase.Granted? && s.ops[op].phase.batch.id == id
  }

  ghost predicate ApprovalsKept(s: State) {
    forall id :: id in s.log.fates && s.log.fates[id].Approved? ==>
      var op := s.log.fates[id].op;
      Executed(s.log, id, op) || Held(s, id, op) || op in s.log.failed
  }

  lemma {:induction false} StillExecuted(log: Log, more: Log, id: BatchId, op: OpId)
    requires Executed(log, id, op) && log.paused <= more.paused && log.executed <= more.executed
    ensures Executed(more, id, op)
  {
    var i :| 0 <= i < |log.executed| && log.executed[i] == Execution(op, id, log.paused[id]);
    assert more.executed[i] == Execution(op, id, more.paused[id]);
  }

  /** Steps only add to the log. */
  lemma LogGrows(cfg: Config, s: State, e: Event)
    requires Enabled(cfg, s, e)
    ensures var log := Step(cfg, s, e).log;
      s.log.paused <= log.paused && s.log.executed <= log.executed && s.log.failed <= log.failed
  {
  }

  lemma HeldStays(cfg: Config, s: State, e: Event, id: BatchId, op: OpId)
    requires CarriesMessage(s) && Enabled(cfg, s, e) && Held(s, id, op) && e != Execute(op) && e != Fail(op)
    ensures Held(Step(cfg, s, e), id, op)
  {
    assert op < s.nextOp;
  }

  lemma StepKeepsApproval(cfg: Config, s: State, e: Event, id: BatchId)
    requires Inv(cfg, s) && ApprovalsKept(s) && Enabled(cfg, s, e) && id in s.log.fates && s.log.fates[id].Approved?
    ensures var (t, op) := (Step(cfg, s, e), s.log.fates[id].op);
      Executed(t.log, id, op) || Held(t, id, op) || op in t.log.failed
  {
    var t, op := Step(cfg, s, e), s.log.fates[id].op;
    LogGrows(cfg, s, e);
    if Executed(s.log, id, op) {
      hide Step;
      StillExecuted(s.log, t.log, id, op);
    } else if op !in s.log.failed {
      if e == Execute(op) {
        ExecutionRunsBatch(cfg, s, op);
        assert t.log.executed[|s.log.executed|] == Execution(op, id, t.log.paused[id]);
      } else if e == Fail(op) {
        FailureEndsRun(cfg, s, op);
      } else {
        HeldStays(cfg, s, e, id, op);
      }
      hide Step, Inv;
    }
  }

  lemma StepKeepsApprovals(cfg: Config, s: State, e: Event)
    requires Inv(cfg, s) && ApprovalsKept(s) && Enabled(cfg, s, e)
    ensures ApprovalsKept(Step(cfg, s, e))
  {
    var t := Step(cfg, s, e);
    forall id | id in t.log.fates && t.log.fates[id].Approved?
      ensures Executed(t.log, id, t.log.fates[id].op) || Held(t, id, t.log.fates[id].op) || t.log.fates[id].op in t.log.failed
    {
      if id in s.log.fates {
        StepKeepsFates(cfg, s, e, id);
        StepKeepsApproval(cfg, s, e, id);
      }
    }
  }

  lemma {:induction false} RunKeepsApprovals(cfg: Config, s: State, es: seq<Event>)
    requires Inv(cfg, s) && ApprovalsKept(s) && EnabledRun(cfg, s, es)
    ensures ApprovalsKept(Run(cfg, s, es))
    decreases |es|
  {
    if es != [] {
      StepKeepsInv(cfg, s, es[0]);
      StepKeepsApprovals(cfg, s, es[0]);
      RunKeepsApprovals(cfg, Step(cfg, s, es[0]), es[1..]);
    }
  }

  /** In every run: a batch that was approved has been executed by its click's run with the calls it was paused with, or
      is still held by that run, or that run failed. */
  lemma ApprovedIsExecuted(cfg: Config, es: seq<Event>, id: BatchId)
    requires EnabledRun(cfg, INITIAL, es)
    requires id in Run(cfg, INITIAL, es).log.fates && Run(cfg, INITIAL, es).log.fates[id].Approved?
    ensures var s := Run(cfg, INITIAL, es);
      var op := s.log.fates[id].op;
      Executed(s.log, id, op) || Held(s, id, op) || op in s.log.failed
  {
    InitialInv(cfg);
    RunKeepsApprovals(cfg, INITIAL, es);
  }

  /** From a click to its end: if the run of an approval has answered, the batch was executed and the answer stands in the
      log for the turn that asked. */
  lemma AnsweredApprovalWasExecuted(cfg: Config, es: seq<Event>, id: BatchId, op: OpId)
    requires EnabledRun(cfg, INITIAL, es)
    requires id in Run(cfg, INITIAL, es).log.fates && Run(cfg, INITIAL, es).log.fates[id] == Approved(op)
    requires op !in Run(cfg, INITIAL, es).ops && op !in Run(cfg, INITIAL, es).log.failed
    ensures Executed(Run(cfg, INITIAL, es).log, id, op)
  {
    ApprovedIsExecuted(cfg, es, id);
  }

  // ---- the log and the events --------------------------------------------------------------------

  function Messages(es: seq<Event>): seq<ApprovalModel.Message> {
    if es == [] then []
    else (if es[0].Arrive? then [ApprovalModel.Message(es[0].thread, es[0].text)] else []) + Messages(es[1..])
  }

  function PausedCalls(es: seq<Event>): seq<seq<ToolCall>> {
    if es == [] then [] else (if es[0].Pause? then [es[0].calls] else []) + PausedCalls(es[1..])
  }

  function Replies(es: seq<Event>): seq<string> {
    if es == [] then [] else (if es[0].Answer? then [es[0].reply] else []) + Replies(es[1..])
  }

  function Executions(es: seq<Event>): seq<OpId> {
    if es == [] then [] else (if es[0].Execute? then [es[0].op] else []) + Executions(es[1..])
  }

  function RepliesOf(commits: seq<Commit>): seq<string> {
    seq(|commits|, i requires 0 <= i < |commits| => commits[i].reply)
  }

  function OpsOf(executed: seq<Execution>): seq<OpId> {
    seq(|executed|, i requires 0 <= i < |executed| => executed[i].op)
  }

  lemma StepLogs(cfg: Config, s: State, e: Event)
    requires Enabled(cfg, s, e)
    ensures var log := Step(cfg, s, e).log;
      && log.messages == s.log.messages + (if e.Arrive? then [ApprovalModel.Message(e.thread, e.text)] else [])
      && log.paused == s.log.paused + (if e.Pause? then [e.calls] else [])
      && RepliesOf(log.commits) == RepliesOf(s.log.commits) + (if e.Answer? then [e.reply] else [])
      && OpsOf(log.executed) == OpsOf(s.log.executed) + (if e.Execute? then [e.op] else [])
  {
    var log := Step(cfg, s, e).log;
    assert !e.Answer? ==> log.commits == s.log.commits;
    assert !e.Execute? ==> log.executed == s.log.executed;
  }

  lemma {:induction false} MessagesFollow(cfg: Config, s: State, es: seq<Event>)
    requires EnabledRun(cfg, s, es)
    ensures Run(cfg, s, es).log.messages == s.log.messages + Messages(es)
    decreases |es|
  {
    if es != [] {
      StepLogs(cfg, s, es[0]);
      MessagesFollow(cfg, Step(cfg, s, es[0]), es[1..]);
      hide Step, RepliesOf, OpsOf;
    }
  }

  lemma {:induction false} PausesFollow(cfg: Config, s: State, es: seq<Event>)
    requires EnabledRun(cfg, s, es)
    ensures Run(cfg, s, es).log.paused == s.log.paused + PausedCalls(es)
    decreases |es|
  {
    if es != [] {
      StepLogs(cfg, s, es[0]);
      PausesFollow(cfg, Step(cfg, s, es[0]), es[1..]);
      hide Step, RepliesOf, OpsOf;
    }
  }

  lemma {:induction false} RecordsFollow(cfg: Config, s: State, es: seq<Event>)
    requires EnabledRun(cfg, s, es)
    ensures RepliesOf(Run(cfg, s, es).log.commits) == RepliesOf(s.log.commits) + Replies(es)
    ensures OpsOf(Run(cfg, s, es).log.executed) == OpsOf(s.log.executed) + Executions(es)
    decreases |es|
  {
    if es != [] {
      StepLogs(cfg, s, es[0]);
      RecordsFollow(cfg, Step(cfg, s, es[0]), es[1..]);
      hide Step, RepliesOf, OpsOf;
    }
  }

  /** The log is what happened: the messages that arrived, the calls of each pause, the runs that executed, and the replies
      of the answers, each in order. */
  lemma LogTellsTheRun(cfg: Config, es: seq<Event>)
    requires EnabledRun(cfg, INITIAL, es)
    ensures var log := Run(cfg, INITIAL, es).log;
      && log.messages == Messages(es) && log.paused == PausedCalls(es)
      && RepliesOf(log.commits) == Replies(es) && OpsOf(log.executed) == Executions(es)
  {
    MessagesFollow(cfg, INITIAL, es);
    PausesFollow(cfg, INITIAL, es);
    RecordsFollow(cfg, INITIAL, es);
  }
}
