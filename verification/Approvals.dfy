/** Write approvals: a run that wants to write pauses, and waits in a table for a click.

Each message opens a turn.  A turn is carried by a run in progress (`ops`), or by a paused batch of write calls in the
table (`pending`), until it ends.  What happens is also written to a log, from which steps only take new numbers. */
module ApprovalModel {
  import H = ThreadHistory
  import opened Transcript

  type OpId = nat
  type TurnId = nat
  type BatchId = nat
  type ThreadKey = string

  datatype Batch = Batch(id: BatchId, calls: seq<ToolCall>, turn: TurnId, text: string)

  datatype Phase = Thinking | Granted(batch: Batch)
  datatype Op = Op(thread: ThreadKey, turn: TurnId, text: string, phase: Phase)

  datatype Fate = Approved(op: OpId) | Denied | Superseded | Replaced | Unavailable
  datatype Ending = Committed | Dropped | Failed

  datatype Message = Message(thread: ThreadKey, text: string)
  datatype Execution = Execution(op: OpId, batch: BatchId, calls: seq<ToolCall>)
  datatype Commit = Commit(turn: TurnId, thread: ThreadKey, text: string, reply: string)

  datatype Log = Log(
    messages: seq<Message>,
    paused: seq<seq<ToolCall>>,
    fates: map<BatchId, Fate>,
    endings: map<TurnId, Ending>,
    executed: seq<Execution>,
    commits: seq<Commit>,
    failed: set<OpId>)

  datatype State = State(pending: map<ThreadKey, Batch>, ops: map<OpId, Op>, nextOp: OpId, history: H.History, log: Log)

  /** `hasLoop`: tools are registered. */
  datatype Config = Config(hasLoop: bool, maxHistory: int)

  datatype Event =
    | Arrive(thread: ThreadKey, text: string)    // a message that is not a button click
    | Approve(thread: ThreadKey)
    | Deny(thread: ThreadKey)
    | Execute(op: OpId)                          // the granted calls
    | Pause(op: OpId, calls: seq<ToolCall>)      // the run met calls that need approval
    | Answer(op: OpId, reply: string)
    | Fail(op: OpId)                             // an exception, or cancellation

  const INITIAL := State(map[], map[], 0, map[], Log([], [], map[], map[], [], [], {}))

  predicate Enabled(cfg: Config, s: State, e: Event) {
    match e
    case Arrive(_, _) => true
    case Approve(_) => true
    case Deny(_) => true
    case Execute(op) => op in s.ops && s.ops[op].phase.Granted?
    case Pause(op, _) => cfg.hasLoop && op in s.ops && s.ops[op].phase.Thinking?
    case Answer(op, _) => op in s.ops && s.ops[op].phase.Thinking?
    case Fail(op) => op in s.ops
  }

  /** Takes a thread's batch out of the table, which ends its turn. */
  function Discard(s: State, thread: ThreadKey, fate: Fate): State {
    if thread !in s.pending then s
    else
      var batch := s.pending[thread];
      s.(pending := s.pending - {thread},
         log := s.log.(fates := s.log.fates[batch.id := fate], endings := s.log.endings[batch.turn := Dropped]))
  }

  function BeginTurn(s: State, thread: ThreadKey, text: string): State {
    s.(ops := s.ops[s.nextOp := Op(thread, |s.log.messages|, text, Thinking)],
       nextOp := s.nextOp + 1,
       history := H.Touch(s.history, thread),
       log := s.log.(messages := s.log.messages + [Message(thread, text)]))
  }

  function Grant(s: State, thread: ThreadKey): State
    requires thread in s.pending
  {
    var batch := s.pending[thread];
    s.(pending := s.pending - {thread},
       ops := s.ops[s.nextOp := Op(thread, batch.turn, batch.text, Granted(batch))],
       nextOp := s.nextOp + 1,
       log := s.log.(fates := s.log.fates[batch.id := Approved(s.nextOp)]))
  }

  function ExecuteBatch(s: State, op: OpId): State
    requires op in s.ops && s.ops[op].phase.Granted?
  {
    var batch := s.ops[op].phase.batch;
    s.(ops := s.ops[op := s.ops[op].(phase := Thinking)],
       log := s.log.(executed := s.log.executed + [Execution(op, batch.id, batch.calls)]))
  }

  function Store(s: State, op: OpId, calls: seq<ToolCall>): State
    requires op in s.ops
  {
    var o := s.ops[op];
    s.(pending := s.pending[o.thread := Batch(|s.log.paused|, calls, o.turn, o.text)],
       ops := s.ops - {op},
       log := s.log.(paused := s.log.paused + [calls]))
  }

  function Finish(cfg: Config, s: State, op: OpId, reply: string): State
    requires op in s.ops
  {
    var o := s.ops[op];
    s.(ops := s.ops - {op},
       history := H.Commit(cfg.maxHistory, s.history, o.thread, o.text, reply),
       log := s.log.(endings := s.log.endings[o.turn := Committed],
                     commits := s.log.commits + [Commit(o.turn, o.thread, o.text, reply)]))
  }

  function GiveUp(s: State, op: OpId): State
    requires op in s.ops
  {
    s.(ops := s.ops - {op},
       log := s.log.(endings := s.log.endings[s.ops[op].turn := Failed], failed := s.log.failed + {op}))
  }

  function Step(cfg: Config, s: State, e: Event): State
    requires Enabled(cfg, s, e)
  {
    match e
    case Arrive(thread, text) => BeginTurn(Discard(s, thread, Superseded), thread, text)
    case Approve(thread) =>
      if thread !in s.pending then s
      else if !cfg.hasLoop then Discard(s, thread, Unavailable)
      else Grant(s, thread)
    case Deny(thread) => Discard(s, thread, Denied)
    case Execute(op) => ExecuteBatch(s, op)
    case Pause(op, calls) => Store(Discard(s, s.ops[op].thread, Replaced), op, calls)
    case Answer(op, reply) => Finish(cfg, s, op, reply)
    case Fail(op) => GiveUp(s, op)
  }

  predicate EnabledRun(cfg: Config, s: State, es: seq<Event>)
    decreases |es|
  {
    es == [] || (Enabled(cfg, s, es[0]) && EnabledRun(cfg, Step(cfg, s, es[0]), es[1..]))
  }

  function Run(cfg: Config, s: State, es: seq<Event>): State
    requires EnabledRun(cfg, s, es)
    decreases |es|
  {
    if es == [] then s else Run(cfg, Step(cfg, s, es[0]), es[1..])
  }
}

module ApprovalProofs {
  import H = ThreadHistory
  import opened Transcript
  import opened ApprovalModel

  // ---- the invariant -----------------------------------------------------------------------------

  /** Where a turn can be, and where a batch can be. */
  datatype TurnPlace = InRun(op: OpId) | InTable(thread: ThreadKey) | Over
  datatype BatchPlace = Waiting(thread: ThreadKey) | Met

  predicate TurnAt(s: State, turn: TurnId, place: TurnPlace) {
    match place
    case InRun(op) => op in s.ops && s.ops[op].turn == turn
    case InTable(thread) => thread in s.pending && s.pending[thread].turn == turn
    case Over => turn in s.log.endings
  }

  predicate BatchAt(s: State, id: BatchId, place: BatchPlace) {
    match place
    case Waiting(thread) => thread in s.pending && s.pending[thread].id == id
    case Met => id in s.log.fates
  }

  ghost predicate TurnSomewhere(s: State, turn: TurnId) {
    exists place :: TurnAt(s, turn, place)
  }

  ghost predicate BatchSomewhere(s: State, id: BatchId) {
    exists place :: BatchAt(s, id, place)
  }

  /** Every turn is in exactly one place: a run, the table, or over. */
  ghost predicate TurnsPlaced(s: State) {
    && (forall turn: TurnId :: TurnSomewhere(s, turn) <==> turn < |s.log.messages|)
    && (forall turn: TurnId, p, q :: TurnAt(s, turn, p) && TurnAt(s, turn, q) ==> p == q)
  }

  /** Every batch is in exactly one place: waiting in the table under one thread, or met by its fate. */
  ghost predicate BatchesPlaced(s: State) {
    && (forall id: BatchId :: BatchSomewhere(s, id) <==> id < |s.log.paused|)
    && (forall id: BatchId, p, q :: BatchAt(s, id, p) && BatchAt(s, id, q) ==> p == q)
  }

  /** Each run or batch carries its own message, and each batch the calls it was paused with. */
  ghost predicate CarriesMessage(s: State) {
    && (forall op :: op in s.ops ==>
          var o := s.ops[op];
          && op < s.nextOp && o.turn < |s.log.messages|
          && s.log.messages[o.turn] == Message(o.thread, o.text))
    && (forall thread :: thread in s.pending ==>
          var b := s.pending[thread];
          && b.turn < |s.log.messages| && s.log.messages[b.turn] == Message(thread, b.text)
          && b.id < |s.log.paused| && s.log.paused[b.id] == b.calls)
  }

  /** A granted batch was taken by this very click, and has not been executed yet. */
  ghost predicate GrantsExact(s: State) {
    && (forall op :: op in s.ops && s.ops[op].phase.Granted? ==>
          var b := s.ops[op].phase.batch;
          && b.id in s.log.fates && s.log.fates[b.id] == Approved(op)
          && b.id < |s.log.paused| && s.log.paused[b.id] == b.calls
          && forall i :: 0 <= i < |s.log.executed| ==> s.log.executed[i].batch != b.id)
    && (forall i :: 0 <= i < |s.log.executed| ==>
          var x := s.log.executed[i];
          && x.batch in s.log.fates && s.log.fates[x.batch] == Approved(x.op)
          && x.batch < |s.log.paused| && s.log.paused[x.batch] == x.calls)
    && (forall i, j :: 0 <= i < j < |s.log.executed| ==> s.log.executed[i].batch != s.log.executed[j].batch)
  }

  function Turns(commits: seq<Commit>): seq<H.Turn> {
    if commits == [] then []
    else
      var last := commits[|commits| - 1];
      Turns(commits[..|commits| - 1]) + [H.Turn(last.thread, last.text, last.reply)]
  }

  ghost predicate CommitsOnce(log: Log) {
    && (forall i :: 0 <= i < |log.commits| ==>
          var c := log.commits[i];
          && c.turn in log.endings && log.endings[c.turn] == Committed
          && c.turn < |log.messages| && log.messages[c.turn] == Message(c.thread, c.text))
    && (forall i, j :: 0 <= i < j < |log.commits| ==> log.commits[i].turn != log.commits[j].turn)
  }

  ghost predicate HistoryExact(cfg: Config, history: H.History, commits: seq<Commit>) {
    forall thread :: H.Of(history, thread) == H.Of(H.Replay(cfg.maxHistory, Turns(commits)), thread)
  }

  /** Each message is committed at most once, under its own thread and text; and history stores the commits. */
  ghost predicate CommitsExact(cfg: Config, s: State) {
    CommitsOnce(s.log) && HistoryExact(cfg, s.history, s.log.commits)
  }

  ghost predicate Inv(cfg: Config, s: State) {
    && TurnsPlaced(s) && BatchesPlaced(s) && CarriesMessage(s) && GrantsExact(s) && CommitsExact(cfg, s)
    && (!cfg.hasLoop ==> s.pending == map[])
  }

  // ---- places ------------------------------------------------------------------------------------

  /** One turn, old or new, is put somewhere and leaves its old place; the others stay. */
  lemma TurnMoves(s: State, s': State, moved: TurnId, from: TurnPlace, to: TurnPlace)
    requires TurnsPlaced(s)
    requires if moved == |s.log.messages| then |s'.log.messages| == |s.log.messages| + 1
             else TurnAt(s, moved, from) && |s'.log.messages| == |s.log.messages|
    requires TurnAt(s', moved, to)
    requires forall x: TurnId, p :: TurnAt(s', x, p) ==>
               (x == moved && p == to) || (TurnAt(s, x, p) && !(x == moved && p == from))
    requires forall x: TurnId, p :: TurnAt(s, x, p) && x != moved ==> TurnAt(s', x, p)
    ensures TurnsPlaced(s')
  {
    forall x: TurnId
      ensures TurnSomewhere(s', x) <==> x < |s'.log.messages|
    {
      assert TurnSomewhere(s, x) <==> x < |s.log.messages|;
      if x != moved && TurnSomewhere(s, x) {
        var p :| TurnAt(s, x, p);
        assert TurnAt(s', x, p);
      }
    }
    assert TurnSomewhere(s, moved) <==> moved < |s.log.messages|;
    forall p | TurnAt(s', moved, p)
      ensures p == to
    {
    }
  }

  /** One batch, old or new, is put somewhere and leaves its old place; the others stay. */
  lemma BatchMoves(s: State, s': State, moved: BatchId, from: BatchPlace, to: BatchPlace)
    requires BatchesPlaced(s)
    requires if moved == |s.log.paused| then |s'.log.paused| == |s.log.paused| + 1
             else BatchAt(s, moved, from) && |s'.log.paused| == |s.log.paused|
    requires BatchAt(s', moved, to)
    requires forall x: BatchId, p :: BatchAt(s', x, p) ==>
               (x == moved && p == to) || (BatchAt(s, x, p) && !(x == moved && p == from))
    requires forall x: BatchId, p :: BatchAt(s, x, p) && x != moved ==> BatchAt(s', x, p)
    ensures BatchesPlaced(s')
  {
    forall x: BatchId
      ensures BatchSomewhere(s', x) <==> x < |s'.log.paused|
    {
      assert BatchSomewhere(s, x) <==> x < |s.log.paused|;
      if x != moved && BatchSomewhere(s, x) {
        var p :| BatchAt(s, x, p);
        assert BatchAt(s', x, p);
      }
    }
    assert BatchSomewhere(s, moved) <==> moved < |s.log.paused|;
    forall p | BatchAt(s', moved, p)
      ensures p == to
    {
    }
  }

  lemma BatchesStay(s: State, s': State)
    requires BatchesPlaced(s) && s'.pending == s.pending && s'.log.paused == s.log.paused
    requires s'.log.fates.Keys == s.log.fates.Keys
    ensures BatchesPlaced(s')
  {
    assert forall b: BatchId, p :: BatchAt(s', b, p) <==> BatchAt(s, b, p);
    forall b: BatchId
      ensures BatchSomewhere(s', b) <==> b < |s'.log.paused|
    {
      assert BatchSomewhere(s, b) <==> b < |s.log.paused|;
      if BatchSomewhere(s, b) {
        var p :| BatchAt(s, b, p);
        assert BatchAt(s', b, p);
      }
    }
  }

  lemma TurnsStay(s: State, s': State)
    requires TurnsPlaced(s) && s'.pending == s.pending && |s'.log.messages| == |s.log.messages|
    requires s'.ops.Keys == s.ops.Keys && forall op :: op in s.ops ==> s'.ops[op].turn == s.ops[op].turn
    requires s'.log.endings.Keys == s.log.endings.Keys
    ensures TurnsPlaced(s')
  {
    assert forall t: TurnId, p :: TurnAt(s', t, p) <==> TurnAt(s, t, p);
    forall t: TurnId
      ensures TurnSomewhere(s', t) <==> t < |s'.log.messages|
    {
      assert TurnSomewhere(s, t) <==> t < |s.log.messages|;
      if TurnSomewhere(s, t) {
        var p :| TurnAt(s, t, p);
        assert TurnAt(s', t, p);
      }
    }
  }

  lemma OpenTurn(s: State, turn: TurnId, place: TurnPlace)
    requires TurnsPlaced(s) && TurnAt(s, turn, place)
    ensures turn < |s.log.messages|
    ensures forall p :: TurnAt(s, turn, p) <==> p == place
  {
    assert TurnSomewhere(s, turn);
  }

  lemma OpenBatch(s: State, id: BatchId, place: BatchPlace)
    requires BatchesPlaced(s) && BatchAt(s, id, place)
    ensures id < |s.log.paused|
    ensures forall p :: BatchAt(s, id, p) <==> p == place
  {
    assert BatchSomewhere(s, id);
  }

  lemma FreshTurn(s: State)
    requires TurnsPlaced(s)
    ensures forall p :: !TurnAt(s, |s.log.messages|, p)
  {
    assert !TurnSomewhere(s, |s.log.messages|);
  }

  lemma FreshBatch(s: State)
    requires BatchesPlaced(s)
    ensures forall p :: !BatchAt(s, |s.log.paused|, p)
  {
    assert !BatchSomewhere(s, |s.log.paused|);
  }

  /** Committed turns are over. */
  lemma NotCommitted(cfg: Config, s: State, turn: TurnId, place: TurnPlace)
    requires TurnsPlaced(s) && CommitsExact(cfg, s) && TurnAt(s, turn, place) && place != Over
    ensures forall i :: 0 <= i < |s.log.commits| ==> s.log.commits[i].turn != turn
  {
    forall i | 0 <= i < |s.log.commits|
      ensures s.log.commits[i].turn != turn
    {
      assert TurnAt(s, s.log.commits[i].turn, Over);
    }
  }

  // ---- the steps ---------------------------------------------------------------------------------

  lemma DiscardKeepsInv(cfg: Config, s: State, thread: ThreadKey, fate: Fate)
    requires Inv(cfg, s)
    ensures Inv(cfg, Discard(s, thread, fate)) && thread !in Discard(s, thread, fate).pending
  {
    hide HistoryExact;
    if thread in s.pending {
      var s', batch := Discard(s, thread, fate), s.pending[thread];
      OpenTurn(s, batch.turn, InTable(thread));
      OpenBatch(s, batch.id, Waiting(thread));
      assert !BatchAt(s, batch.id, Met);
      TurnMoves(s, s', batch.turn, InTable(thread), Over);
      BatchMoves(s, s', batch.id, Waiting(thread), Met);
      NotCommitted(cfg, s, batch.turn, InTable(thread));
      assert CommitsExact(cfg, s');
      assert GrantsExact(s');
    }
  }

  lemma TouchKeepsHistory(cfg: Config, history: H.History, commits: seq<Commit>, thread: ThreadKey)
    requires HistoryExact(cfg, history, commits)
    ensures HistoryExact(cfg, H.Touch(history, thread), commits)
  {
    assert forall t :: H.Of(H.Touch(history, thread), t) == H.Of(history, t);
  }

  lemma BeginRest(cfg: Config, s: State, thread: ThreadKey, text: string)
    requires CarriesMessage(s) && GrantsExact(s) && CommitsExact(cfg, s)
    ensures var s' := BeginTurn(s, thread, text); CarriesMessage(s') && GrantsExact(s') && CommitsExact(cfg, s')
  {
    TouchKeepsHistory(cfg, s.history, s.log.commits, thread);
    hide HistoryExact;
    var s' := BeginTurn(s, thread, text);
    assert forall i :: 0 <= i < |s.log.messages| ==> s'.log.messages[i] == s.log.messages[i];
  }

  lemma BeginKeepsInv(cfg: Config, s: State, thread: ThreadKey, text: string)
    requires Inv(cfg, s)
    ensures Inv(cfg, BeginTurn(s, thread, text))
  {
    var s', turn := BeginTurn(s, thread, text), |s.log.messages|;
    assert s.nextOp !in s.ops;
    FreshTurn(s);
    forall x: TurnId, p | TurnAt(s', x, p)
      ensures (x == turn && p == InRun(s.nextOp)) || (x != turn && TurnAt(s, x, p))
    {
      assert p == InRun(s.nextOp) || TurnAt(s, x, p);
    }
    TurnMoves(s, s', turn, Over, InRun(s.nextOp));
    BatchesStay(s, s');
    BeginRest(cfg, s, thread, text);
  }

  /** Runs and batches that were there before, under the same messages. */
  lemma StillCarries(s: State, s': State)
    requires CarriesMessage(s) && s'.log.messages == s.log.messages && s'.log.paused == s.log.paused && s'.nextOp == s.nextOp
    requires forall op :: op in s'.ops ==> op in s.ops && s'.ops[op].(phase := s.ops[op].phase) == s.ops[op]
    requires forall thread :: thread in s'.pending ==> thread in s.pending && s'.pending[thread] == s.pending[thread]
    ensures CarriesMessage(s')
  {
  }

  lemma GrantRest(s: State, thread: ThreadKey)
    requires BatchesPlaced(s) && CarriesMessage(s) && GrantsExact(s) && thread in s.pending
    ensures CarriesMessage(Grant(s, thread)) && GrantsExact(Grant(s, thread))
  {
    OpenBatch(s, s.pending[thread].id, Waiting(thread));
    assert !BatchAt(s, s.pending[thread].id, Met);
  }

  lemma GrantKeepsInv(cfg: Config, s: State, thread: ThreadKey)
    requires Inv(cfg, s) && thread in s.pending
    ensures Inv(cfg, Grant(s, thread))
  {
    var s', batch := Grant(s, thread), s.pending[thread];
    GrantRest(s, thread);
    assert s.nextOp !in s.ops;
    hide HistoryExact, GrantsExact, CommitsOnce, CarriesMessage;
    TurnMoves(s, s', batch.turn, InTable(thread), InRun(s.nextOp));
    BatchMoves(s, s', batch.id, Waiting(thread), Met);
  }

  lemma ExecuteGrants(s: State, op: OpId)
    requires GrantsExact(s) && op in s.ops && s.ops[op].phase.Granted?
    ensures GrantsExact(ExecuteBatch(s, op))
  {
  }

  lemma ExecuteKeepsInv(cfg: Config, s: State, op: OpId)
    requires Inv(cfg, s) && op in s.ops && s.ops[op].phase.Granted?
    ensures Inv(cfg, ExecuteBatch(s, op))
  {
    var s' := ExecuteBatch(s, op);
    ExecuteGrants(s, op);
    StillCarries(s, s');
    hide HistoryExact, GrantsExact, CommitsOnce, CarriesMessage;
    TurnsStay(s, s');
    BatchesStay(s, s');
  }

  lemma StoreRest(s: State, op: OpId, calls: seq<ToolCall>)
    requires CarriesMessage(s) && GrantsExact(s) && op in s.ops
    ensures CarriesMessage(Store(s, op, calls)) && GrantsExact(Store(s, op, calls))
  {
    var paused := s.log.paused + [calls];
    assert forall i :: 0 <= i < |s.log.paused| ==> paused[i] == s.log.paused[i];
  }

  lemma StoreKeepsInv(cfg: Config, s: State, op: OpId, calls: seq<ToolCall>)
    requires Inv(cfg, s) && cfg.hasLoop && op in s.ops && s.ops[op].thread !in s.pending
    ensures Inv(cfg, Store(s, op, calls))
  {
    var s', o := Store(s, op, calls), s.ops[op];
    StoreRest(s, op, calls);
    hide HistoryExact, GrantsExact, CommitsOnce, CarriesMessage;
    TurnMoves(s, s', o.turn, InRun(op), InTable(o.thread));
    FreshBatch(s);
    forall x: BatchId, p | BatchAt(s', x, p)
      ensures (x == |s.log.paused| && p == Waiting(o.thread)) || (x != |s.log.paused| && BatchAt(s, x, p))
    {
      assert p == Waiting(o.thread) || BatchAt(s, x, p);
    }
    BatchMoves(s, s', |s.log.paused|, Met, Waiting(o.thread));
  }

  lemma GiveUpKeepsInv(cfg: Config, s: State, op: OpId)
    requires Inv(cfg, s) && op in s.ops
    ensures Inv(cfg, GiveUp(s, op))
  {
    hide HistoryExact;
    var s', o := GiveUp(s, op), s.ops[op];
    TurnMoves(s, s', o.turn, InRun(op), Over);
    BatchesStay(s, s');
    NotCommitted(cfg, s, o.turn, InRun(op));
  }

  lemma FinishGrants(cfg: Config, s: State, op: OpId, reply: string)
    requires GrantsExact(s) && op in s.ops
    ensures GrantsExact(Finish(cfg, s, op, reply))
  {
  }

  lemma SameHistorySameCommit(cap: int, h: H.History, g: H.History, c: Commit, thread: ThreadKey)
    requires H.Of(h, c.thread) == H.Of(g, c.thread) && H.Of(h, thread) == H.Of(g, thread)
    ensures H.Of(H.Commit(cap, h, c.thread, c.text, c.reply), thread)
         == H.Of(H.Commit(cap, g, c.thread, c.text, c.reply), thread)
  {
  }

  lemma ReplaySnoc(cap: int, h: H.History, commits: seq<Commit>, c: Commit, thread: ThreadKey)
    requires H.Of(h, c.thread) == H.Of(H.Replay(cap, Turns(commits)), c.thread)
    requires H.Of(h, thread) == H.Of(H.Replay(cap, Turns(commits)), thread)
    ensures H.Of(H.Commit(cap, h, c.thread, c.text, c.reply), thread) == H.Of(H.Replay(cap, Turns(commits + [c])), thread)
  {
    var before := Turns(commits);
    var after := before + [H.Turn(c.thread, c.text, c.reply)];
    assert (commits + [c])[..|commits|] == commits;
    assert Turns(commits + [c]) == after;
    assert after[..|before|] == before;
    var g := H.Replay(cap, before);
    assert H.Replay(cap, after) == H.Commit(cap, g, c.thread, c.text, c.reply);
    SameHistorySameCommit(cap, h, g, c, thread);
  }

  lemma FinishHistory(cfg: Config, history: H.History, commits: seq<Commit>, c: Commit)
    requires HistoryExact(cfg, history, commits)
    ensures HistoryExact(cfg, H.Commit(cfg.maxHistory, history, c.thread, c.text, c.reply), commits + [c])
  {
    forall thread
      ensures H.Of(H.Commit(cfg.maxHistory, history, c.thread, c.text, c.reply), thread)
           == H.Of(H.Replay(cfg.maxHistory, Turns(commits + [c])), thread)
    {
      ReplaySnoc(cfg.maxHistory, history, commits, c, thread);
    }
  }

  lemma CommitsOnceMore(log: Log, c: Commit)
    requires CommitsOnce(log) && forall i :: 0 <= i < |log.commits| ==> log.commits[i].turn != c.turn
    requires c.turn < |log.messages| && log.messages[c.turn] == Message(c.thread, c.text)
    ensures CommitsOnce(log.(endings := log.endings[c.turn := Committed], commits := log.commits + [c]))
  {
  }

  lemma FinishCommits(cfg: Config, s: State, op: OpId, reply: string)
    requires CarriesMessage(s) && CommitsExact(cfg, s) && op in s.ops
    requires forall i :: 0 <= i < |s.log.commits| ==> s.log.commits[i].turn != s.ops[op].turn
    ensures CommitsExact(cfg, Finish(cfg, s, op, reply))
  {
    var s', o := Finish(cfg, s, op, reply), s.ops[op];
    FinishHistory(cfg, s.history, s.log.commits, Commit(o.turn, o.thread, o.text, reply));
    CommitsOnceMore(s.log, Commit(o.turn, o.thread, o.text, reply));
    hide HistoryExact, CommitsOnce;
  }

  lemma FinishPlaces(cfg: Config, s: State, op: OpId, reply: string)
    requires TurnsPlaced(s) && BatchesPlaced(s) && op in s.ops
    ensures TurnsPlaced(Finish(cfg, s, op, reply)) && BatchesPlaced(Finish(cfg, s, op, reply))
  {
    hide H.Commit;
    var s', o := Finish(cfg, s, op, reply), s.ops[op];
    BatchesStay(s, s');
    hide BatchesPlaced;
    OpenTurn(s, o.turn, InRun(op));
    TurnMoves(s, s', o.turn, InRun(op), Over);
  }

  lemma FinishKeepsInv(cfg: Config, s: State, op: OpId, reply: string)
    requires Inv(cfg, s) && op in s.ops
    ensures Inv(cfg, Finish(cfg, s, op, reply))
  {
    NotCommitted(cfg, s, s.ops[op].turn, InRun(op));
    hide TurnsPlaced, BatchesPlaced, CommitsExact, GrantsExact, CarriesMessage;
    FinishPlaces(cfg, s, op, reply);
    FinishGrants(cfg, s, op, reply);
    FinishCommits(cfg, s, op, reply);
    StillCarries(s, Finish(cfg, s, op, reply));
  }

  lemma StepKeepsInv(cfg: Config, s: State, e: Event)
    requires Inv(cfg, s) && Enabled(cfg, s, e)
    ensures Inv(cfg, Step(cfg, s, e))
  {
    match e
    case Arrive(thread, text) =>
      DiscardKeepsInv(cfg, s, thread, Superseded);
      BeginKeepsInv(cfg, Discard(s, thread, Superseded), thread, text);
    case Approve(thread) =>
      if thread in s.pending {
        GrantKeepsInv(cfg, s, thread);
      }
    case Deny(thread) => DiscardKeepsInv(cfg, s, thread, Denied);
    case Execute(op) => ExecuteKeepsInv(cfg, s, op);
    case Pause(op, calls) =>
      DiscardKeepsInv(cfg, s, s.ops[op].thread, Replaced);
      StoreKeepsInv(cfg, Discard(s, s.ops[op].thread, Replaced), op, calls);
    case Answer(op, reply) => FinishKeepsInv(cfg, s, op, reply);
    case Fail(op) => GiveUpKeepsInv(cfg, s, op);
  }

  // ---- whole runs --------------------------------------------------------------------------------

  lemma InitialInv(cfg: Config)
    ensures Inv(cfg, INITIAL)
  {
    assert forall turn: TurnId, p :: !TurnAt(INITIAL, turn, p);
    assert forall id: BatchId, p :: !BatchAt(INITIAL, id, p);
  }

  lemma {:induction false} RunKeepsInv(cfg: Config, s: State, es: seq<Event>)
    requires Inv(cfg, s) && EnabledRun(cfg, s, es)
    ensures Inv(cfg, Run(cfg, s, es))
    decreases |es|
  {
    if es != [] {
      StepKeepsInv(cfg, s, es[0]);
      RunKeepsInv(cfg, Step(cfg, s, es[0]), es[1..]);
    }
  }

  /** In every run each batch is executed at most once, by the click that took it out of the table, with exactly the
      calls it was paused with. */
  lemma ExecutedOnlyByItsClick(cfg: Config, es: seq<Event>)
    requires EnabledRun(cfg, INITIAL, es)
    ensures var log := Run(cfg, INITIAL, es).log;
      && (forall i, j :: 0 <= i < j < |log.executed| ==> log.executed[i].batch != log.executed[j].batch)
      && (forall i :: 0 <= i < |log.executed| ==>
            var x := log.executed[i];
            && x.batch < |log.paused| && x.calls == log.paused[x.batch]
            && x.batch in log.fates && log.fates[x.batch] == Approved(x.op))
  {
    InitialInv(cfg);
    RunKeepsInv(cfg, INITIAL, es);
  }

  /** Every batch is waiting under one thread, or has one fate. */
  lemma BatchesConserved(cfg: Config, es: seq<Event>, id: BatchId)
    requires EnabledRun(cfg, INITIAL, es) && id < |Run(cfg, INITIAL, es).log.paused|
    ensures var s := Run(cfg, INITIAL, es);
      var waiting := exists thread :: thread in s.pending && s.pending[thread].id == id;
      && (waiting <==> id !in s.log.fates)
      && (forall t, u :: t in s.pending && u in s.pending && s.pending[t].id == id && s.pending[u].id == id ==> t == u)
  {
    InitialInv(cfg);
    RunKeepsInv(cfg, INITIAL, es);
    var s := Run(cfg, INITIAL, es);
    assert BatchSomewhere(s, id);
    var place :| BatchAt(s, id, place);
    forall t, u | t in s.pending && u in s.pending && s.pending[t].id == id && s.pending[u].id == id
      ensures t == u
    {
      assert BatchAt(s, id, Waiting(t)) && BatchAt(s, id, Waiting(u));
    }
    if thread :| thread in s.pending && s.pending[thread].id == id {
      assert BatchAt(s, id, Waiting(thread));
      assert id in s.log.fates ==> BatchAt(s, id, Met);
    }
  }

  /** A fate is final: no later step changes it. */
  lemma StepKeepsFates(cfg: Config, s: State, e: Event, id: BatchId)
    requires Inv(cfg, s) && Enabled(cfg, s, e) && id in s.log.fates
    ensures id in Step(cfg, s, e).log.fates && Step(cfg, s, e).log.fates[id] == s.log.fates[id]
  {
    assert BatchAt(s, id, Met);
    forall thread | thread in s.pending
      ensures s.pending[thread].id != id
    {
      assert s.pending[thread].id == id ==> BatchAt(s, id, Waiting(thread));
    }
  }

  lemma {:induction false} FatesAreFinal(cfg: Config, s: State, es: seq<Event>, id: BatchId)
    requires Inv(cfg, s) && EnabledRun(cfg, s, es) && id in s.log.fates
    ensures id in Run(cfg, s, es).log.fates && Run(cfg, s, es).log.fates[id] == s.log.fates[id]
    decreases |es|
  {
    if es != [] {
      StepKeepsInv(cfg, s, es[0]);
      StepKeepsFates(cfg, s, es[0], id);
      FatesAreFinal(cfg, Step(cfg, s, es[0]), es[1..], id);
    }
  }

  /** A batch that a Deny, a later message or another pause removed is never executed, whatever comes after. */
  lemma NeverExecutedAfterRefusal(cfg: Config, first: seq<Event>, then_: seq<Event>, id: BatchId)
    requires EnabledRun(cfg, INITIAL, first) && EnabledRun(cfg, Run(cfg, INITIAL, first), then_)
    requires id in Run(cfg, INITIAL, first).log.fates && !Run(cfg, INITIAL, first).log.fates[id].Approved?
    ensures var log := Run(cfg, Run(cfg, INITIAL, first), then_).log;
      forall i :: 0 <= i < |log.executed| ==> log.executed[i].batch != id
  {
    InitialInv(cfg);
    RunKeepsInv(cfg, INITIAL, first);
    RunKeepsInv(cfg, Run(cfg, INITIAL, first), then_);
    FatesAreFinal(cfg, Run(cfg, INITIAL, first), then_, id);
  }

  /** A Deny or a message decides the fate of what was waiting on its thread, and a click finds nothing after that. */
  lemma RefusalEmptiesTable(cfg: Config, s: State, thread: ThreadKey, text: string)
    requires Inv(cfg, s)
    ensures var denied, overtaken := Step(cfg, s, Deny(thread)), Step(cfg, s, Arrive(thread, text));
      && Step(cfg, denied, Approve(thread)) == denied
      && Step(cfg, overtaken, Approve(thread)) == overtaken
      && (thread in s.pending ==>
            && s.pending[thread].id !in s.log.fates
            && s.pending[thread].id in denied.log.fates && denied.log.fates[s.pending[thread].id] == ApprovalModel.Denied
            && s.pending[thread].id in overtaken.log.fates && overtaken.log.fates[s.pending[thread].id] == Superseded)
  {
    if thread in s.pending {
      OpenBatch(s, s.pending[thread].id, Waiting(thread));
      assert !BatchAt(s, s.pending[thread].id, Met);
    }
  }

  // ---- prompts that get lost ---------------------------------------------------------------------

  /** Some pause of the run finds its thread's place in the table taken. */
  predicate Overwrites(cfg: Config, s: State, es: seq<Event>)
    requires EnabledRun(cfg, s, es)
    decreases |es|
  {
    es != [] &&
    ((es[0].Pause? && s.ops[es[0].op].thread in s.pending) || Overwrites(cfg, Step(cfg, s, es[0]), es[1..]))
  }

  ghost predicate Lost(s: State) {
    exists id :: id in s.log.fates && s.log.fates[id] == Replaced
  }

  lemma StepLoses(cfg: Config, s: State, e: Event)
    requires Enabled(cfg, s, e) && !Lost(s)
    ensures Lost(Step(cfg, s, e)) <==> e.Pause? && s.ops[e.op].thread in s.pending
  {
    var fates := Step(cfg, s, e).log.fates;
    if e.Pause? && s.ops[e.op].thread in s.pending {
      var id := s.pending[s.ops[e.op].thread].id;
      assert id in fates && fates[id] == Replaced;
    } else {
      assert forall id :: id in fates && fates[id] == Replaced ==> id in s.log.fates && s.log.fates[id] == Replaced;
    }
  }

  /** An approval prompt is lost without anyone deciding exactly when a pause overwrites an entry. */
  lemma {:induction false} LostExact(cfg: Config, s: State, es: seq<Event>)
    requires Inv(cfg, s) && EnabledRun(cfg, s, es) && !Lost(s)
    ensures Lost(Run(cfg, s, es)) <==> Overwrites(cfg, s, es)
    decreases |es|
  {
    if es != [] {
      var s' := Step(cfg, s, es[0]);
      StepKeepsInv(cfg, s, es[0]);
      StepLoses(cfg, s, es[0]);
      if Lost(s') {
        var id :| id in s'.log.fates && s'.log.fates[id] == Replaced;
        FatesAreFinal(cfg, s', es[1..], id);
      } else {
        LostExact(cfg, s', es[1..]);
      }
    }
  }

  /** Nothing waits on a thread with a run in progress, and no thread has two runs. */
  ghost predicate OneAtATime(s: State) {
    && (forall op :: op in s.ops ==> s.ops[op].thread !in s.pending)
    && (forall op, other :: op in s.ops && other in s.ops && s.ops[op].thread == s.ops[other].thread ==> op == other)
  }

  /** The message arrives while its thread is busy. */
  predicate Interrupts(s: State, e: Event) {
    e.Arrive? && exists op :: op in s.ops && s.ops[op].thread == e.thread
  }

  lemma ArrivalExact(cfg: Config, s: State, thread: ThreadKey, text: string)
    requires s.nextOp !in s.ops && OneAtATime(s)
    ensures OneAtATime(Step(cfg, s, Arrive(thread, text))) <==> !Interrupts(s, Arrive(thread, text))
  {
    var s' := Step(cfg, s, Arrive(thread, text));
    assert s'.ops == s.ops[s.nextOp := s'.ops[s.nextOp]] && s'.ops[s.nextOp].thread == thread;
    if op :| op in s.ops && s.ops[op].thread == thread {
      assert op in s'.ops && s.nextOp in s'.ops && s'.ops[op].thread == s'.ops[s.nextOp].thread;
    } else {
      assert s'.pending == s.pending - {thread};
    }
  }

  lemma ClickKeepsOne(cfg: Config, s: State, thread: ThreadKey)
    requires s.nextOp !in s.ops && OneAtATime(s)
    ensures OneAtATime(Step(cfg, s, Approve(thread)))
  {
    assert thread in s.pending ==> forall op :: op in s.ops ==> s.ops[op].thread != thread;
  }

  lemma PauseKeepsOne(cfg: Config, s: State, op: OpId, calls: seq<ToolCall>)
    requires OneAtATime(s) && Enabled(cfg, s, Pause(op, calls))
    ensures OneAtATime(Step(cfg, s, Pause(op, calls)))
  {
    assert forall other :: other in s.ops && other != op ==> s.ops[other].thread != s.ops[op].thread;
  }

  /** With messages kept apart, every step leaves each thread with at most one run or one prompt. */
  lemma OneAtATimeExact(cfg: Config, s: State, e: Event)
    requires CarriesMessage(s) && Enabled(cfg, s, e) && OneAtATime(s)
    ensures OneAtATime(Step(cfg, s, e)) <==> !Interrupts(s, e)
  {
    assert s.nextOp !in s.ops;
    match e
    case Arrive(thread, text) => ArrivalExact(cfg, s, thread, text);
    case Approve(thread) => ClickKeepsOne(cfg, s, thread);
    case Deny(_) =>
    case Execute(_) =>
    case Pause(op, calls) => PauseKeepsOne(cfg, s, op, calls);
    case Answer(_, _) =>
    case Fail(_) =>
  }

  predicate Patient(cfg: Config, s: State, es: seq<Event>)
    requires EnabledRun(cfg, s, es)
    decreases |es|
  {
    es == [] || (!Interrupts(s, es[0]) && Patient(cfg, Step(cfg, s, es[0]), es[1..]))
  }

  /** If messages wait until their thread is idle, no prompt is ever lost. */
  lemma {:induction false} PatienceLosesNothing(cfg: Config, s: State, es: seq<Event>)
    requires Inv(cfg, s) && EnabledRun(cfg, s, es) && OneAtATime(s) && Patient(cfg, s, es)
    ensures OneAtATime(Run(cfg, s, es)) && !Overwrites(cfg, s, es)
    decreases |es|
  {
    if es != [] {
      OneAtATimeExact(cfg, s, es[0]);
      StepKeepsInv(cfg, s, es[0]);
      PatienceLosesNothing(cfg, Step(cfg, s, es[0]), es[1..]);
    }
  }

  lemma Unroll(cfg: Config, s: State, es: seq<Event>, s': State)
    requires es != [] && Enabled(cfg, s, es[0]) && s' == Step(cfg, s, es[0]) && EnabledRun(cfg, s', es[1..])
    ensures EnabledRun(cfg, s, es) && Run(cfg, s, es) == Run(cfg, s', es[1..])
  {
  }

  /** Two messages of one thread, both pausing: the second prompt silently takes the place of the first. */
  lemma OverlapLosesPrompt(cfg: Config, a: seq<ToolCall>, b: seq<ToolCall>)
    requires cfg.hasLoop
    ensures var es := [Arrive("t", "one"), Arrive("t", "two"), Pause(0, a), Pause(1, b)];
      && EnabledRun(cfg, INITIAL, es)
      && Run(cfg, INITIAL, es).log.fates == map[0 := Replaced]
      && Run(cfg, INITIAL, es).pending == map["t" := Batch(1, b, 1, "two")]
  {
    var es := [Arrive("t", "one"), Arrive("t", "two"), Pause(0, a), Pause(1, b)];
    var s1 := Step(cfg, INITIAL, es[0]);
    var s2 := Step(cfg, s1, es[1]);
    var s3 := Step(cfg, s2, es[2]);
    var s4 := Step(cfg, s3, es[3]);
    assert s2.ops == map[0 := Op("t", 0, "one", Thinking), 1 := Op("t", 1, "two", Thinking)];
    assert s3.pending == map["t" := Batch(0, a, 0, "one")] && s3.log.fates == map[];
    Unroll(cfg, s3, es[3..], s4);
    Unroll(cfg, s2, es[2..], s3);
    Unroll(cfg, s1, es[1..], s2);
    Unroll(cfg, INITIAL, es[0..], s1);
    assert es[0..] == es;
  }

  // ---- what is remembered ------------------------------------------------------------------------

  /** In every run: each message is committed at most once, under its own thread and with its own text, however many
      approvals lay between; and each thread stores the end of the log of its commits. */
  lemma CommitsAreRemembered(cfg: Config, es: seq<Event>, thread: ThreadKey)
    requires EnabledRun(cfg, INITIAL, es) && cfg.maxHistory >= 1
    ensures var s := Run(cfg, INITIAL, es);
      && (forall i, j :: 0 <= i < j < |s.log.commits| ==> s.log.commits[i].turn != s.log.commits[j].turn)
      && (forall i :: 0 <= i < |s.log.commits| ==>
            var c := s.log.commits[i];
            c.turn < |s.log.messages| && s.log.messages[c.turn] == Message(c.thread, c.text))
      && H.Of(s.history, thread) == H.Last(cfg.maxHistory, H.Log(Turns(s.log.commits), thread))
  {
    InitialInv(cfg);
    RunKeepsInv(cfg, INITIAL, es);
    H.StoredIsRecent(cfg.maxHistory, Turns(Run(cfg, INITIAL, es).log.commits), thread);
  }

  /** Only an answer changes what is remembered, and only for its own thread. */
  lemma UnansweredTurnsLeaveNoTrace(cfg: Config, s: State, e: Event, thread: ThreadKey)
    requires Enabled(cfg, s, e) && (e.Answer? ==> s.ops[e.op].thread != thread)
    ensures H.Of(Step(cfg, s, e).history, thread) == H.Of(s.history, thread)
  {
  }
}

/** The orchestrator object; each method is the code between two awaits. */
module ApprovalService {
  import H = ThreadHistory
  import opened Transcript
  import opened ApprovalModel

  class Orchestrator {
    const prompt: H.LayeredPromptBuilder
    const hasLoop: bool
    var pendingApprovals: map<ThreadKey, Batch>
    var ops: map<OpId, Op>
    var nextOp: OpId
    var log: Log

    ghost function Cfg(): Config {
      Config(hasLoop, prompt.maxHistory)
    }

    ghost function View(): State
      reads this, prompt
    {
      State(pendingApprovals, ops, nextOp, prompt.threadHistory, log)
    }

    constructor (hasLoop: bool, prompt: H.LayeredPromptBuilder)
      requires prompt.threadHistory == map[]
      ensures View() == INITIAL && Cfg() == Config(hasLoop, prompt.maxHistory) && this.prompt == prompt
    {
      this.hasLoop, this.prompt := hasLoop, prompt;
      pendingApprovals, ops, nextOp := map[], map[], 0;
      log := Log([], [], map[], map[], [], [], {});
    }

    /** `pop(thread_key, None)`. */
    method PopPending(thread: ThreadKey, fate: Fate) returns (found: bool)
      modifies this`pendingApprovals, this`log
      ensures View() == Discard(old(View()), thread, fate)
      ensures found <==> thread in old(pendingApprovals)
    {
      found := thread in pendingApprovals;
      if found {
        var batch := pendingApprovals[thread];
        log := log.(fates := log.fates[batch.id := fate], endings := log.endings[batch.turn := Dropped]);
        pendingApprovals := pendingApprovals - {thread};
      }
    }

    /** A message, up to the start of the run; returns the history for its prompt. */
    method Handle(thread: ThreadKey, text: string) returns (op: OpId, hist: seq<H.Entry>)
      modifies this`pendingApprovals, this`ops, this`nextOp, this`log, prompt
      ensures View() == Step(Cfg(), old(View()), Arrive(thread, text))
      ensures op == old(nextOp) && hist == H.Snapshot(prompt.maxHistory, old(prompt.threadHistory), thread, text)
    {
      if thread in pendingApprovals {
        var _ := PopPending(thread, Superseded);
      }
      hist := prompt.HistoryWithUserMessage(thread, text);
      op := nextOp;
      ops, nextOp := ops[op := Op(thread, |log.messages|, text, Thinking)], nextOp + 1;
      log := log.(messages := log.messages + [Message(thread, text)]);
    }

    /** A click on Approve; nothing found means a suppressed response. */
    method HandleWriteApproval(thread: ThreadKey) returns (granted: bool)
      modifies this`pendingApprovals, this`ops, this`nextOp, this`log
      ensures View() == Step(Cfg(), old(View()), Approve(thread))
      ensures granted <==> thread in old(pendingApprovals) && hasLoop
      ensures granted ==> old(nextOp) in ops && ops[old(nextOp)].phase == Granted(old(pendingApprovals)[thread])
    {
      if thread !in pendingApprovals {
        return false;
      }
      var pending := pendingApprovals[thread];
      if !hasLoop {
        var _ := PopPending(thread, Unavailable);
        return false;
      }
      pendingApprovals := pendingApprovals - {thread};
      log := log.(fates := log.fates[pending.id := Approved(nextOp)]);
      ops, nextOp := ops[nextOp := Op(thread, pending.turn, pending.text, Granted(pending))], nextOp + 1;
      granted := true;
    }

    /** The granted tool calls. */
    method ExecuteGranted(op: OpId) returns (calls: seq<ToolCall>)
      requires op in ops && ops[op].phase.Granted?
      modifies this`ops, this`log
      ensures View() == Step(Cfg(), old(View()), Execute(op)) && calls == old(ops[op].phase.batch.calls)
    {
      var batch := ops[op].phase.batch;
      calls := batch.calls;
      ops := ops[op := ops[op].(phase := Thinking)];
      log := log.(executed := log.executed + [Execution(op, batch.id, calls)]);
    }

    method HandleWriteDenial(thread: ThreadKey) returns (found: bool)
      modifies this`pendingApprovals, this`log
      ensures View() == Step(Cfg(), old(View()), Deny(thread))
      ensures found <==> thread in old(pendingApprovals)
    {
      found := PopPending(thread, ApprovalModel.Denied);
    }

    /** `except WriteApprovalError`, of a first run or of a resumed one. */
    method SavePending(op: OpId, calls: seq<ToolCall>)
      requires Enabled(Cfg(), View(), Pause(op, calls))
      modifies this`pendingApprovals, this`ops, this`log
      ensures View() == Step(Cfg(), old(View()), Pause(op, calls))
    {
      var o := ops[op];
      var _ := PopPending(o.thread, Replaced);
      pendingApprovals := pendingApprovals[o.thread := Batch(|log.paused|, calls, o.turn, o.text)];
      log := log.(paused := log.paused + [calls]);
      ops := ops - {op};
    }

    method CommitAnswer(op: OpId, reply: string)
      requires Enabled(Cfg(), View(), Answer(op, reply))
      modifies this`ops, this`log, prompt
      ensures View() == Step(Cfg(), old(View()), Answer(op, reply))
    {
      hide H.Commit, H.Snapshot, H.Capped;
      var o := ops[op];
      prompt.CommitTurn(o.thread, o.text, reply);
      log := log.(endings := log.endings[o.turn := Committed],
                  commits := log.commits + [Commit(o.turn, o.thread, o.text, reply)]);
      ops := ops - {op};
    }

    method OnFailure(op: OpId)
      requires op in ops
      modifies this`ops, this`log
      ensures View() == Step(Cfg(), old(View()), Fail(op))
    {
      log := log.(endings := log.endings[ops[op].turn := Failed], failed := log.failed + {op});
      ops := ops - {op};
    }
  }
}
