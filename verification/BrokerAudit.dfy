/** What the broker queues for the audit writer, and in which order.

A request is audited only after its handler has sent the acknowledgement or error frame, and a timeout only after its
timer has sent the timeout frame; at both awaits everything else may go on. */
module BrokerAuditModel {
  import opened AuditModel
  import B = BrokerModel

  /** The columns of a message row, as copied from the message. */
  type Rows = MessageId -> MessageRow

  /** A row that is queued when the frame its handler is sending is out. */
  datatype Answer = Answer(id: MessageId, status: DeliveryStatus)

  datatype State = State(
    broker: B.State,
    answering: map<B.Socket, Answer>,          // request handlers after their delivery
    notifying: map<B.TaskId, MessageId>,       // timers that have fired
    seen: set<MessageId>,                      // the ids of all messages received
    queue: seq<Entry>)

  datatype Event =
    | Broker(event: B.Event)
    | AnswerSent(ws: B.Socket)                 // or its socket was closed: both go on
    | NoticeSent(task: B.TaskId)
    | OtherRow(id: MessageId, ok: bool)        // a send, publish, reply or stream message is audited

  const INITIAL := State(B.EMPTY_STATE, map[], map[], {}, [])

  /** A handler that is still answering reads no further frame, and does not end. */
  predicate Idle(s: State, e: B.Event) {
    match e
    case Closed(ws) => ws !in s.answering
    case RequestFrame(ws, _, _) => ws !in s.answering
    case ReplyFrame(ws, _) => ws !in s.answering
    case SubscribeFrame(ws, _) => ws !in s.answering
    case UnsubscribeFrame(ws, _) => ws !in s.answering
    case _ => true
  }

  predicate Enabled(s: State, e: Event) {
    match e
    case Broker(b) => B.Enabled(s.broker, b) && Idle(s, b)
    case AnswerSent(ws) => ws in s.answering
    case NoticeSent(task) => task in s.notifying
    case OtherRow(_, _) => true
  }

  function OnRequest(cfg: B.Config, s: State, ws: B.Socket, rid: MessageId, to: B.SandboxId): State
    requires ws in s.broker.handlers
  {
    var (broker, response) := B.BeginRequest(cfg, s.broker, s.broker.handlers[ws], ws, rid, to);
    s.(broker := broker, seen := s.seen + {rid},
       answering := if response.TargetOffline? then s.answering[ws := Answer(rid, Error)] else s.answering)
  }

  /** A rollback cancels the timer, even one that is sending its notice. */
  function OnDeliveryEnd(s: State, ws: B.Socket, ok: bool): State
    requires ws in s.broker.deliveries
  {
    var d := s.broker.deliveries[ws];
    s.(broker := B.EndRequest(s.broker, ws, ok).0,
       answering := s.answering[ws := Answer(d.request, if ok then Delivered else Error)],
       notifying := if ok then s.notifying else s.notifying - {d.task})
  }

  function OnTimer(s: State, task: B.TaskId): State
    requires task in s.broker.timers
  {
    var request := s.broker.timers[task].request;
    s.(broker := B.Expire(s.broker, task).0,
       notifying := if request in s.broker.pending then s.notifying[task := request] else s.notifying)
  }

  function Step(cfg: B.Config, rows: Rows, s: State, e: Event): State
    requires Enabled(s, e)
  {
    match e
    case Broker(RequestFrame(ws, rid, to)) => OnRequest(cfg, s, ws, rid, to)
    case Broker(DeliveryEnds(ws, ok)) => OnDeliveryEnd(s, ws, ok)
    case Broker(TimerFires(task)) => OnTimer(s, task)
    case Broker(b) => s.(broker := B.Step(cfg, s.broker, b))
    case AnswerSent(ws) =>
      var a := s.answering[ws];
      s.(answering := s.answering - {ws}, queue := s.queue + [Insert(a.id, rows(a.id).(status := a.status))])
    case NoticeSent(task) =>
      s.(notifying := s.notifying - {task}, queue := s.queue + [Update(s.notifying[task], Timeout)])
    case OtherRow(id, ok) =>
      s.(seen := s.seen + {id},
         queue := s.queue + [Insert(id, rows(id).(status := if ok then Delivered else Error))])
  }

  predicate EnabledRun(cfg: B.Config, rows: Rows, s: State, es: seq<Event>)
    decreases |es|
  {
    es == [] || (Enabled(s, es[0]) && EnabledRun(cfg, rows, Step(cfg, rows, s, es[0]), es[1..]))
  }

  function Run(cfg: B.Config, rows: Rows, s: State, es: seq<Event>): State
    requires EnabledRun(cfg, rows, s, es)
    decreases |es|
  {
    if es == [] then s else Run(cfg, rows, Step(cfg, rows, s, es[0]), es[1..])
  }
}

/** The queue is order-safe exactly if no timeout overtakes the row it is about. */
module BrokerAuditProofs {
  import opened AuditModel
  import opened AuditProofs
  import opened BrokerAuditModel
  import opened Wrappers
  import B = BrokerModel
  import BA = BrokerAnswers

  // ---- where rows and updates are ----------------------------------------------------------------

  datatype RowPlace = Delivering(ws: B.Socket) | Answering(ws: B.Socket) | Queued(i: nat)
  datatype UpdatePlace = Armed(task: B.TaskId) | Notifying(task: B.TaskId) | Posted(i: nat)

  predicate RowAt(s: State, id: MessageId, place: RowPlace) {
    match place
    case Delivering(ws) => ws in s.broker.deliveries && s.broker.deliveries[ws].request == id
    case Answering(ws) => ws in s.answering && s.answering[ws].id == id
    case Queued(i) => i < |s.queue| && s.queue[i].Insert? && s.queue[i].id == id
  }

  predicate UpdateAt(s: State, id: MessageId, place: UpdatePlace) {
    match place
    case Armed(task) => task in s.broker.timers && s.broker.timers[task].request == id
    case Notifying(task) => task in s.notifying && s.notifying[task] == id
    case Posted(i) => i < |s.queue| && s.queue[i].Update? && s.queue[i].id == id
  }

  /** The row of a message is in at most one place, and so is its status update. */
  ghost predicate RowsPlaced(s: State) {
    && (forall id, p :: RowAt(s, id, p) ==> id in s.seen)
    && (forall id, p, q :: RowAt(s, id, p) && RowAt(s, id, q) ==> p == q)
  }

  ghost predicate UpdatesPlaced(s: State) {
    && (forall id, p :: UpdateAt(s, id, p) ==> id in s.seen)
    && (forall id, p, q :: UpdateAt(s, id, p) && UpdateAt(s, id, q) ==> p == q)
  }

  /** Rows come in as delivered or as failed; timeouts only as updates. */
  ghost predicate StatusesOk(s: State) {
    && (forall ws :: ws in s.answering ==> s.answering[ws].status != Timeout)
    && (forall i :: 0 <= i < |s.queue| ==> if s.queue[i].Insert? then s.queue[i].row.status != Timeout
                                          else s.queue[i].status == Timeout)
  }

  ghost predicate Inv(s: State) {
    RowsPlaced(s) && UpdatesPlaced(s) && StatusesOk(s) && (forall task :: task in s.broker.timers ==> task < s.broker.nextTask)
  }

  /** No message uses an id that was seen before. */
  predicate Unique(s: State, e: Event) {
    match e
    case Broker(RequestFrame(_, rid, _)) => rid !in s.seen
    case OtherRow(id, _) => id !in s.seen
    case _ => true
  }

  // ---- one step ----------------------------------------------------------------------------------

  /** A row moves from one place to another, or appears; the others stay. */
  lemma RowMoves(s: State, s': State, moved: MessageId, from: RowPlace, to: RowPlace)
    requires RowsPlaced(s) && s.seen <= s'.seen && moved in s'.seen
    requires moved in s.seen ==> RowAt(s, moved, from)
    requires forall id, p :: RowAt(s', id, p) ==> (id == moved && p == to) || (RowAt(s, id, p) && !(id == moved && p == from))
    ensures RowsPlaced(s')
  {
  }

  lemma RowsStay(s: State, s': State)
    requires RowsPlaced(s) && s.seen <= s'.seen
    requires forall id, p :: RowAt(s', id, p) ==> RowAt(s, id, p)
    ensures RowsPlaced(s')
  {
  }

  lemma UpdateMoves(s: State, s': State, moved: MessageId, from: UpdatePlace, to: UpdatePlace)
    requires UpdatesPlaced(s) && s.seen <= s'.seen && moved in s'.seen
    requires moved in s.seen ==> UpdateAt(s, moved, from)
    requires forall id, p :: UpdateAt(s', id, p) ==>
               (id == moved && p == to) || (UpdateAt(s, id, p) && !(id == moved && p == from))
    ensures UpdatesPlaced(s')
  {
  }

  lemma UpdatesStay(s: State, s': State)
    requires UpdatesPlaced(s) && s.seen <= s'.seen
    requires forall id, p :: UpdateAt(s', id, p) ==> UpdateAt(s, id, p)
    ensures UpdatesPlaced(s')
  {
  }

  /** The fields that matter here, after a request was registered. */
  predicate Registered(s: State, s': State, ws: B.Socket, rid: MessageId) {
    && ws in s'.broker.deliveries && s'.broker.deliveries == s.broker.deliveries[ws := s'.broker.deliveries[ws]]
    && s'.broker.deliveries[ws].request == rid
    && s.broker.nextTask in s'.broker.timers && s'.broker.timers[s.broker.nextTask].request == rid
    && s'.broker.timers == s.broker.timers[s.broker.nextTask := s'.broker.timers[s.broker.nextTask]]
    && s'.broker.nextTask == s.broker.nextTask + 1
    && s'.answering == s.answering && s'.notifying == s.notifying && s'.queue == s.queue && s'.seen == s.seen + {rid}
  }

  lemma RegisteredKeepsInv(s: State, s': State, ws: B.Socket, rid: MessageId)
    requires Inv(s) && ws !in s.broker.deliveries && rid !in s.seen && Registered(s, s', ws, rid)
    ensures Inv(s')
  {
    var task := s.broker.nextTask;
    RowMoves(s, s', rid, Delivering(ws), Delivering(ws));
    UpdateMoves(s, s', rid, Armed(task), Armed(task));
  }

  lemma RefusedKeepsInv(s: State, s': State, ws: B.Socket, rid: MessageId)
    requires Inv(s) && ws !in s.answering && rid !in s.seen
    requires s' == s.(seen := s.seen + {rid}, answering := s'.answering)
    requires s'.answering == s.answering || s'.answering == s.answering[ws := Answer(rid, Error)]
    ensures Inv(s')
  {
    if s'.answering == s.answering {
      RowsStay(s, s');
    } else {
      RowMoves(s, s', rid, Answering(ws), Answering(ws));
    }
    UpdatesStay(s, s');
  }

  lemma RequestKeepsInv(cfg: B.Config, s: State, ws: B.Socket, rid: MessageId, to: B.SandboxId)
    requires Inv(s) && ws in s.broker.handlers && ws !in s.broker.deliveries && ws !in s.answering && rid !in s.seen
    ensures Inv(OnRequest(cfg, s, ws, rid, to))
  {
    hide Inv;
    var s' := OnRequest(cfg, s, ws, rid, to);
    if B.RequestGuard(cfg, s.broker, s.broker.handlers[ws], to).Forwarded? {
      RegisteredKeepsInv(s, s', ws, rid);
    } else {
      RefusedKeepsInv(s, s', ws, rid);
    }
  }

  lemma DeliveryEndKeepsInv(s: State, ws: B.Socket, ok: bool)
    requires Inv(s) && ws in s.broker.deliveries && ws !in s.answering
    ensures Inv(OnDeliveryEnd(s, ws, ok))
  {
    var s', rid := OnDeliveryEnd(s, ws, ok), s.broker.deliveries[ws].request;
    assert RowAt(s, rid, Delivering(ws));
    RowMoves(s, s', rid, Delivering(ws), Answering(ws));
    UpdatesStay(s, s');
  }

  lemma QuietKeepsInv(s: State, s': State)
    requires Inv(s) && BA.Quiet(s.broker, s'.broker) && s' == s.(broker := s'.broker)
    ensures Inv(s')
  {
    RowsStay(s, s');
    UpdatesStay(s, s');
  }

  lemma FiredKeepsInv(s: State, s': State, task: B.TaskId)
    requires Inv(s) && task in s.broker.timers && s'.broker.timers == s.broker.timers - {task} && BA.Quiet(s.broker, s'.broker)
    requires s' == s.(broker := s'.broker, notifying := s.notifying[task := s.broker.timers[task].request])
    ensures Inv(s')
  {
    var rid := s.broker.timers[task].request;
    assert UpdateAt(s, rid, Armed(task));
    RowsStay(s, s');
    UpdateMoves(s, s', rid, Armed(task), Notifying(task));
  }

  lemma TimerKeepsInv(cfg: B.Config, s: State, task: B.TaskId)
    requires Inv(s) && task in s.broker.timers && task !in s.notifying
    ensures Inv(OnTimer(s, task))
  {
    hide Inv;
    BA.QuietStep(cfg, s.broker, B.TimerFires(task));
    if s.broker.timers[task].request in s.broker.pending {
      FiredKeepsInv(s, OnTimer(s, task), task);
    } else {
      QuietKeepsInv(s, OnTimer(s, task));
    }
  }

  lemma AnswerKeepsInv(cfg: B.Config, rows: Rows, s: State, ws: B.Socket)
    requires Inv(s) && ws in s.answering
    ensures Inv(Step(cfg, rows, s, AnswerSent(ws)))
  {
    var s', id := Step(cfg, rows, s, AnswerSent(ws)), s.answering[ws].id;
    assert RowAt(s, id, Answering(ws));
    RowMoves(s, s', id, Answering(ws), Queued(|s.queue|));
    UpdatesStay(s, s');
  }

  lemma NoticeKeepsInv(cfg: B.Config, rows: Rows, s: State, task: B.TaskId)
    requires Inv(s) && task in s.notifying
    ensures Inv(Step(cfg, rows, s, NoticeSent(task)))
  {
    var s', id := Step(cfg, rows, s, NoticeSent(task)), s.notifying[task];
    assert UpdateAt(s, id, Notifying(task));
    UpdateMoves(s, s', id, Notifying(task), Posted(|s.queue|));
    RowsStay(s, s');
  }

  lemma OtherRowKeepsInv(cfg: B.Config, rows: Rows, s: State, id: MessageId, ok: bool)
    requires Inv(s) && id !in s.seen
    ensures Inv(Step(cfg, rows, s, OtherRow(id, ok)))
  {
    var s' := Step(cfg, rows, s, OtherRow(id, ok));
    RowMoves(s, s', id, Queued(|s.queue|), Queued(|s.queue|));
    UpdatesStay(s, s');
  }

  /** A handler is never in a delivery and in an answer at once, and a timer that has fired is not armed. */
  ghost predicate OneAwait(s: State) {
    && (forall ws :: ws in s.broker.deliveries ==> ws !in s.answering)
    && (forall task :: task in s.notifying ==> task !in s.broker.timers && task < s.broker.nextTask)
  }

  lemma RequestKeepsAwaits(cfg: B.Config, s: State, ws: B.Socket, rid: MessageId, to: B.SandboxId)
    requires OneAwait(s) && ws in s.broker.handlers && ws !in s.broker.deliveries && ws !in s.answering
    ensures OneAwait(OnRequest(cfg, s, ws, rid, to))
  {
  }

  lemma StepKeepsAwaits(cfg: B.Config, rows: Rows, s: State, e: Event)
    requires Inv(s) && OneAwait(s) && Enabled(s, e)
    ensures OneAwait(Step(cfg, rows, s, e))
  {
    hide OnRequest, B.Step, RowsPlaced, UpdatesPlaced, StatusesOk;
    match e
    case Broker(RequestFrame(ws, rid, to)) => RequestKeepsAwaits(cfg, s, ws, rid, to);
    case Broker(DeliveryEnds(ws, ok)) =>
    case Broker(b) => BA.QuietStep(cfg, s.broker, b);
    case AnswerSent(_) =>
    case NoticeSent(_) =>
    case OtherRow(_, _) =>
  }

  lemma StepKeepsInv(cfg: B.Config, rows: Rows, s: State, e: Event)
    requires Inv(s) && OneAwait(s) && Enabled(s, e) && Unique(s, e)
    ensures Inv(Step(cfg, rows, s, e)) && OneAwait(Step(cfg, rows, s, e))
  {
    StepKeepsAwaits(cfg, rows, s, e);
    hide Inv;
    match e
    case Broker(RequestFrame(ws, rid, to)) => RequestKeepsInv(cfg, s, ws, rid, to);
    case Broker(DeliveryEnds(ws, ok)) => DeliveryEndKeepsInv(s, ws, ok);
    case Broker(TimerFires(task)) => TimerKeepsInv(cfg, s, task);
    case Broker(b) =>
      BA.QuietStep(cfg, s.broker, b);
      QuietKeepsInv(s, Step(cfg, rows, s, e));
    case AnswerSent(ws) => AnswerKeepsInv(cfg, rows, s, ws);
    case NoticeSent(task) => NoticeKeepsInv(cfg, rows, s, task);
    case OtherRow(id, ok) => OtherRowKeepsInv(cfg, rows, s, id, ok);
  }

  // ---- when a timeout overtakes its row ----------------------------------------------------------

  /** The update at position `k` is queued before its row, which is at `p`. */
  predicate Early(s: State, k: nat, p: RowPlace) {
    k < |s.queue| && s.queue[k].Update? && RowAt(s, s.queue[k].id, p) && !(p.Queued? && p.i < k)
  }

  ghost predicate InOrder(s: State) {
    forall k: nat, p :: !Early(s, k, p)
  }

  /** The timer is done while the handler of its own request is still delivering or answering. */
  predicate Overtakes(s: State, e: Event)
    requires Enabled(s, e)
  {
    e.NoticeSent? &&
    var id := s.notifying[e.task];
    || (exists ws :: ws in s.broker.deliveries && s.broker.deliveries[ws].request == id)
    || (exists ws :: ws in s.answering && s.answering[ws].id == id)
  }

  /** Rows only move on: from the delivery to the answer to the end of the queue. */
  ghost predicate RowsMoveOn(s: State, s': State, e: Event)
    requires Enabled(s, e)
  {
    && s.queue <= s'.queue
    && (forall id, p :: RowAt(s', id, p) && !RowAt(s, id, p) ==>
          id !in s.seen || (exists ws :: RowAt(s, id, Delivering(ws)) || RowAt(s, id, Answering(ws))))
    && (forall id, p :: RowAt(s, id, p) && !RowAt(s', id, p) ==>
          exists q :: RowAt(s', id, q) && if q.Queued? then q.i >= |s.queue| else q.Answering?)
  }

  lemma RowsMoveNowhere(s: State, s': State, e: Event)
    requires Enabled(s, e) && s'.broker.deliveries == s.broker.deliveries && s'.answering == s.answering
    requires s'.queue == s.queue || (|s'.queue| == |s.queue| + 1 && s.queue <= s'.queue && s'.queue[|s.queue|].Update?)
    ensures RowsMoveOn(s, s', e)
  {
    assert forall id, p :: RowAt(s', id, p) <==> RowAt(s, id, p);
  }

  lemma NewRowMovesOn(cfg: B.Config, rows: Rows, s: State, id: MessageId, ok: bool)
    requires id !in s.seen
    ensures RowsMoveOn(s, Step(cfg, rows, s, OtherRow(id, ok)), OtherRow(id, ok))
  {
    var s' := Step(cfg, rows, s, OtherRow(id, ok));
    assert forall x, p :: RowAt(s', x, p) ==> RowAt(s, x, p) || x == id;
    assert forall x, p :: RowAt(s, x, p) ==> RowAt(s', x, p);
  }

  lemma OneRowAppears(s: State, s': State, ws: B.Socket, rid: MessageId, e: Event)
    requires Enabled(s, e) && ws !in s.broker.deliveries && ws !in s.answering && rid !in s.seen && s'.queue == s.queue
    requires s'.broker.deliveries == s.broker.deliveries
          || (ws in s'.broker.deliveries && s'.broker.deliveries[ws].request == rid
              && s'.broker.deliveries == s.broker.deliveries[ws := s'.broker.deliveries[ws]])
    requires s'.answering == s.answering
          || (ws in s'.answering && s'.answering[ws].id == rid && s'.answering == s.answering[ws := s'.answering[ws]])
    ensures RowsMoveOn(s, s', e)
  {
    assert forall id, p :: RowAt(s, id, p) ==> RowAt(s', id, p);
    assert forall id, p :: RowAt(s', id, p) ==> RowAt(s, id, p) || id == rid;
  }

  lemma RequestMovesOn(cfg: B.Config, s: State, ws: B.Socket, rid: MessageId, to: B.SandboxId)
    requires Enabled(s, Broker(B.RequestFrame(ws, rid, to))) && ws !in s.answering && rid !in s.seen
    ensures RowsMoveOn(s, OnRequest(cfg, s, ws, rid, to), Broker(B.RequestFrame(ws, rid, to)))
  {
    var s' := OnRequest(cfg, s, ws, rid, to);
    if B.RequestGuard(cfg, s.broker, s.broker.handlers[ws], to).Forwarded? {
      assert s'.answering == s.answering;
    } else {
      assert s'.broker == s.broker;
    }
    OneRowAppears(s, s', ws, rid, Broker(B.RequestFrame(ws, rid, to)));
  }

  lemma DeliveryMovesOn(s: State, ws: B.Socket, ok: bool)
    requires ws in s.broker.deliveries && ws !in s.answering
    requires B.Enabled(s.broker, B.DeliveryEnds(ws, ok))
    ensures RowsMoveOn(s, OnDeliveryEnd(s, ws, ok), Broker(B.DeliveryEnds(ws, ok)))
  {
    var s', rid := OnDeliveryEnd(s, ws, ok), s.broker.deliveries[ws].request;
    assert RowAt(s, rid, Delivering(ws)) && RowAt(s', rid, Answering(ws));
    forall id, p | RowAt(s', id, p) && !RowAt(s, id, p)
      ensures id == rid
    {
    }
    forall id, p | RowAt(s, id, p) && !RowAt(s', id, p)
      ensures id == rid
    {
    }
  }

  lemma AnswerMovesOn(cfg: B.Config, rows: Rows, s: State, ws: B.Socket)
    requires ws in s.answering
    ensures RowsMoveOn(s, Step(cfg, rows, s, AnswerSent(ws)), AnswerSent(ws))
  {
    var s', rid := Step(cfg, rows, s, AnswerSent(ws)), s.answering[ws].id;
    assert RowAt(s, rid, Answering(ws)) && RowAt(s', rid, Queued(|s.queue|));
    forall id, p | RowAt(s', id, p) && !RowAt(s, id, p)
      ensures id == rid
    {
    }
    forall id, p | RowAt(s, id, p) && !RowAt(s', id, p)
      ensures id == rid
    {
    }
  }

  lemma StepsMoveOn(cfg: B.Config, rows: Rows, s: State, e: Event)
    requires Inv(s) && OneAwait(s) && Enabled(s, e) && Unique(s, e)
    ensures RowsMoveOn(s, Step(cfg, rows, s, e), e)
  {
    hide Inv, RowsMoveOn;
    match e
    case Broker(RequestFrame(ws, rid, to)) => RequestMovesOn(cfg, s, ws, rid, to);
    case Broker(DeliveryEnds(ws, ok)) => DeliveryMovesOn(s, ws, ok);
    case Broker(b) =>
      BA.QuietStep(cfg, s.broker, b);
      RowsMoveNowhere(s, Step(cfg, rows, s, e), e);
    case AnswerSent(ws) => AnswerMovesOn(cfg, rows, s, ws);
    case NoticeSent(task) => RowsMoveNowhere(s, Step(cfg, rows, s, e), e);
    case OtherRow(id, ok) => NewRowMovesOn(cfg, rows, s, id, ok);
  }

  lemma NoticeExact(cfg: B.Config, rows: Rows, s: State, task: B.TaskId)
    requires InOrder(s) && task in s.notifying
    ensures InOrder(Step(cfg, rows, s, NoticeSent(task))) <==> !Overtakes(s, NoticeSent(task))
  {
    var s', id, n := Step(cfg, rows, s, NoticeSent(task)), s.notifying[task], |s.queue|;
    assert s'.queue[n] == Update(id, Timeout);
    assert forall x, p :: RowAt(s', x, p) <==> RowAt(s, x, p);
    if ws :| ws in s.broker.deliveries && s.broker.deliveries[ws].request == id {
      assert Early(s', n, Delivering(ws));
    } else if ws :| ws in s.answering && s.answering[ws].id == id {
      assert Early(s', n, Answering(ws));
    } else {
      forall k: nat, p
        ensures !Early(s', k, p)
      {
        assert !Early(s, k, p);
        if k < n {
          assert s.queue[k] == s'.queue[k];
        }
      }
    }
  }

  lemma NoNewUpdates(cfg: B.Config, rows: Rows, s: State, e: Event)
    requires Enabled(s, e) && !e.NoticeSent?
    ensures var queue := Step(cfg, rows, s, e).queue;
      forall k :: 0 <= k < |queue| && queue[k].Update? ==> k < |s.queue| && s.queue[k] == queue[k]
  {
  }

  lemma OrderStays(s: State, s': State, e: Event)
    requires InOrder(s) && UpdatesPlaced(s) && Enabled(s, e) && RowsMoveOn(s, s', e)
    requires forall k :: 0 <= k < |s'.queue| && s'.queue[k].Update? ==> k < |s.queue| && s.queue[k] == s'.queue[k]
    ensures InOrder(s')
  {
    forall k: nat, p
      ensures !Early(s', k, p)
    {
      if Early(s', k, p) {
        var id := s'.queue[k].id;
        assert s.queue[k] == s'.queue[k] && UpdateAt(s, id, Posted(k));
        forall q | q == p || q.Delivering? || q.Answering?
          ensures !Early(s, k, q)
        {
        }
      }
    }
  }

  /** A step keeps the order if and only if it does not let a timeout overtake its row. */
  lemma StepExact(cfg: B.Config, rows: Rows, s: State, e: Event)
    requires Inv(s) && OneAwait(s) && Enabled(s, e) && Unique(s, e) && InOrder(s)
    ensures InOrder(Step(cfg, rows, s, e)) <==> !Overtakes(s, e)
  {
    var s' := Step(cfg, rows, s, e);
    StepsMoveOn(cfg, rows, s, e);
    if e.NoticeSent? {
      NoticeExact(cfg, rows, s, e.task);
    } else {
      NoNewUpdates(cfg, rows, s, e);
      OrderStays(s, s', e);
    }
  }

  /** Once lost, the order is lost for good. */
  lemma DisorderStays(cfg: B.Config, rows: Rows, s: State, e: Event)
    requires Inv(s) && OneAwait(s) && Enabled(s, e) && Unique(s, e) && !InOrder(s)
    ensures !InOrder(Step(cfg, rows, s, e))
  {
    var s' := Step(cfg, rows, s, e);
    StepsMoveOn(cfg, rows, s, e);
    var k: nat, p :| Early(s, k, p);
    assert s'.queue[k] == s.queue[k];
    if RowAt(s', s'.queue[k].id, p) {
      assert Early(s', k, p);
    } else {
      var q :| RowAt(s', s'.queue[k].id, q) && if q.Queued? then q.i >= |s.queue| else q.Answering?;
      assert Early(s', k, q);
    }
  }

  // ---- whole runs --------------------------------------------------------------------------------

  predicate UniqueRun(cfg: B.Config, rows: Rows, s: State, es: seq<Event>)
    requires EnabledRun(cfg, rows, s, es)
    decreases |es|
  {
    es == [] || (Unique(s, es[0]) && UniqueRun(cfg, rows, Step(cfg, rows, s, es[0]), es[1..]))
  }

  /** Some timeout overtakes its row. */
  predicate OvertakingRun(cfg: B.Config, rows: Rows, s: State, es: seq<Event>)
    requires EnabledRun(cfg, rows, s, es)
    decreases |es|
  {
    es != [] && (Overtakes(s, es[0]) || OvertakingRun(cfg, rows, Step(cfg, rows, s, es[0]), es[1..]))
  }

  lemma {:induction false} RunKeepsInv(cfg: B.Config, rows: Rows, s: State, es: seq<Event>)
    requires Inv(s) && OneAwait(s) && EnabledRun(cfg, rows, s, es) && UniqueRun(cfg, rows, s, es)
    ensures Inv(Run(cfg, rows, s, es))
    decreases |es|
  {
    if es != [] {
      StepKeepsInv(cfg, rows, s, es[0]);
      RunKeepsInv(cfg, rows, Step(cfg, rows, s, es[0]), es[1..]);
    }
  }

  lemma {:induction false} RunExact(cfg: B.Config, rows: Rows, s: State, es: seq<Event>)
    requires Inv(s) && OneAwait(s) && EnabledRun(cfg, rows, s, es) && UniqueRun(cfg, rows, s, es)
    ensures InOrder(Run(cfg, rows, s, es)) <==> InOrder(s) && !OvertakingRun(cfg, rows, s, es)
    decreases |es|
  {
    if es != [] {
      var s' := Step(cfg, rows, s, es[0]);
      StepKeepsInv(cfg, rows, s, es[0]);
      RunExact(cfg, rows, s', es[1..]);
      if InOrder(s) {
        StepExact(cfg, rows, s, es[0]);
      } else {
        DisorderStays(cfg, rows, s, es[0]);
      }
    }
  }

  lemma InitialInv()
    ensures Inv(INITIAL) && OneAwait(INITIAL) && InOrder(INITIAL)
  {
  }

  // ---- what it means for the audit table ---------------------------------------------------------

  lemma QueueFresh(s: State)
    requires Inv(s)
    ensures Fresh(map[], s.queue)
  {
    forall i, j | 0 <= i < j < |s.queue| && s.queue[i].Insert? && s.queue[j].Insert?
      ensures s.queue[i].id != s.queue[j].id
    {
      assert RowAt(s, s.queue[i].id, Queued(i)) && RowAt(s, s.queue[j].id, Queued(j));
    }
  }

  lemma InOrderIsSafe(s: State)
    requires Inv(s) && InOrder(s)
    ensures Fresh(map[], s.queue) && OrderSafe(s.queue)
  {
    QueueFresh(s);
    forall i, j | 0 <= i < j < |s.queue| && s.queue[i].Update? && s.queue[j].Insert?
      ensures s.queue[i].id != s.queue[j].id
    {
      assert !Early(s, i, Queued(j));
    }
    UpdatesAfterInsertsAreSafe(s.queue);
  }

  lemma SomeUpdateSomeStatus(es: seq<Entry>, id: MessageId, k: nat)
    requires k < |es| && es[k].Update? && es[k].id == id
    ensures LastStatus(es, id).Some?
  {
    assert es == es[..k] + es[k..];
    LastStatusConcat(es[..k], es[k..], id);
  }

  /** An update in front of its row is the only one of its id, and the row does not come in as timed out. */
  lemma DisorderIsUnsafe(s: State, k: nat, i: nat)
    requires Inv(s) && k < i < |s.queue| && s.queue[k].Update? && s.queue[i].Insert? && s.queue[k].id == s.queue[i].id
    ensures !OrderSafe(s.queue)
  {
    var es, id := s.queue, s.queue[i].id;
    forall j | 0 <= j < |es| && es[j].Update? && es[j].id == id
      ensures j == k
    {
      assert UpdateAt(s, id, Posted(j)) && UpdateAt(s, id, Posted(k));
    }
    NoUpdateNoStatus(es[i+1..], id);
    assert es[..i][k] == es[k];
    SomeUpdateSomeStatus(es[..i], id, k);
    var last := LastUpdate(es[..i], id);
    assert es[..i][last] == es[last];
    assert !OrderSafeAt(es, i);
  }

  lemma AtRestExact(s: State)
    requires Inv(s) && s.broker.deliveries == map[] && s.answering == map[]
    ensures OrderSafe(s.queue) <==> InOrder(s)
    ensures CuttingsAgree(map[], s.queue) <==> InOrder(s)
  {
    QueueFresh(s);
    FreshBatchingExact(map[], s.queue);
    if InOrder(s) {
      InOrderIsSafe(s);
    } else {
      var k: nat, p :| Early(s, k, p);
      DisorderIsUnsafe(s, k, p.i);
    }
  }

  /** When no handler is suspended any more: however the audit queue of a run was cut into batches, the table is the one
      its entries give one by one, if and only if no timeout overtook its row. */
  lemma AuditExact(cfg: B.Config, rows: Rows, es: seq<Event>)
    requires EnabledRun(cfg, rows, INITIAL, es) && UniqueRun(cfg, rows, INITIAL, es)
    requires Run(cfg, rows, INITIAL, es).broker.deliveries == map[] && Run(cfg, rows, INITIAL, es).answering == map[]
    ensures CuttingsAgree(map[], Run(cfg, rows, INITIAL, es).queue) <==> !OvertakingRun(cfg, rows, INITIAL, es)
    ensures OrderSafe(Run(cfg, rows, INITIAL, es).queue) <==> !OvertakingRun(cfg, rows, INITIAL, es)
  {
    InitialInv();
    RunKeepsInv(cfg, rows, INITIAL, es);
    RunExact(cfg, rows, INITIAL, es);
    AtRestExact(Run(cfg, rows, INITIAL, es));
  }

  /** At any moment: without overtaking, the cutting does not matter. */
  lemma PromptRunsAreSafe(cfg: B.Config, rows: Rows, es: seq<Event>)
    requires EnabledRun(cfg, rows, INITIAL, es) && UniqueRun(cfg, rows, INITIAL, es)
    requires !OvertakingRun(cfg, rows, INITIAL, es)
    ensures CuttingsAgree(map[], Run(cfg, rows, INITIAL, es).queue)
  {
    InitialInv();
    RunKeepsInv(cfg, rows, INITIAL, es);
    RunExact(cfg, rows, INITIAL, es);
    InOrderIsSafe(Run(cfg, rows, INITIAL, es));
    FreshBatchingExact(map[], Run(cfg, rows, INITIAL, es).queue);
  }

  // ---- what a row says ---------------------------------------------------------------------------

  /** A request to an offline target is answered, and audited, as an error; one that is forwarded, or refused before any
      routing, is not audited now. */
  lemma RequestAudited(cfg: B.Config, rows: Rows, s: State, ws: B.Socket, rid: MessageId, to: B.SandboxId)
    requires Enabled(s, Broker(B.RequestFrame(ws, rid, to)))
    ensures var t := Step(cfg, rows, s, Broker(B.RequestFrame(ws, rid, to)));
      var response := B.BeginRequest(cfg, s.broker, s.broker.handlers[ws], ws, rid, to).1;
      && t.answering == (if response == B.TargetOffline then s.answering[ws := Answer(rid, Error)] else s.answering)
      && t.queue == s.queue && t.notifying == s.notifying && rid in t.seen
  {
  }

  lemma RequestTouchesOwn(cfg: B.Config, s: State, w: B.Socket, rid: MessageId, to: B.SandboxId, ws: B.Socket)
    requires w in s.broker.handlers && w != ws
    ensures var t := OnRequest(cfg, s, w, rid, to);
      && (ws in t.answering <==> ws in s.answering) && (ws in s.answering ==> t.answering[ws] == s.answering[ws])
      && (ws in t.broker.deliveries <==> ws in s.broker.deliveries)
  {
  }

  lemma StepKeepsAnswer(cfg: B.Config, rows: Rows, s: State, e: Event, ws: B.Socket)
    requires Enabled(s, e) && ws in s.answering && ws !in s.broker.deliveries && e != AnswerSent(ws)
    ensures var t := Step(cfg, rows, s, e);
      ws in t.answering && t.answering[ws] == s.answering[ws] && ws !in t.broker.deliveries
  {
    hide OnRequest, B.Step;
    match e
    case Broker(RequestFrame(w, rid, to)) => RequestTouchesOwn(cfg, s, w, rid, to, ws);
    case Broker(DeliveryEnds(_, _)) =>
    case Broker(b) => BA.QuietStep(cfg, s.broker, b);
    case AnswerSent(_) =>
    case NoticeSent(_) =>
    case OtherRow(_, _) =>
  }

  /** While a handler sends its answer, nothing else touches what it is going to queue. */
  lemma {:induction false} AnswerWaits(cfg: B.Config, rows: Rows, s: State, es: seq<Event>, ws: B.Socket)
    requires EnabledRun(cfg, rows, s, es) && ws in s.answering && ws !in s.broker.deliveries && AnswerSent(ws) !in es
    ensures var t := Run(cfg, rows, s, es);
      ws in t.answering && t.answering[ws] == s.answering[ws] && ws !in t.broker.deliveries
    decreases |es|
  {
    if es != [] {
      assert es[0] in es;
      StepKeepsAnswer(cfg, rows, s, es[0], ws);
      AnswerWaits(cfg, rows, Step(cfg, rows, s, es[0]), es[1..], ws);
    }
  }

  /** Whatever happens while the answer is being sent: the row of a request is queued as delivered exactly if its delivery
      returned, and as an error if it raised. */
  lemma RowTellsDelivery(cfg: B.Config, rows: Rows, s: State, ws: B.Socket, ok: bool, es: seq<Event>)
    requires OneAwait(s) && Enabled(s, Broker(B.DeliveryEnds(ws, ok))) && AnswerSent(ws) !in es
    requires EnabledRun(cfg, rows, Step(cfg, rows, s, Broker(B.DeliveryEnds(ws, ok))), es)
    ensures var id := s.broker.deliveries[ws].request;
      var t := Run(cfg, rows, Step(cfg, rows, s, Broker(B.DeliveryEnds(ws, ok))), es);
      && Enabled(t, AnswerSent(ws))
      && Step(cfg, rows, t, AnswerSent(ws)).queue
         == t.queue + [Insert(id, rows(id).(status := if ok then Delivered else Error))]
  {
    AnswerWaits(cfg, rows, Step(cfg, rows, s, Broker(B.DeliveryEnds(ws, ok))), es, ws);
  }

  /** The delivery of this registration fails. */
  predicate RollsBack(s: State, e: Event, task: B.TaskId) {
    && e.Broker? && e.event.DeliveryEnds? && !e.event.ok
    && e.event.ws in s.broker.deliveries && s.broker.deliveries[e.event.ws].task == task
  }

  predicate RollsBackIn(cfg: B.Config, rows: Rows, s: State, es: seq<Event>, task: B.TaskId)
    requires EnabledRun(cfg, rows, s, es)
    decreases |es|
  {
    es != [] && (RollsBack(s, es[0], task) || RollsBackIn(cfg, rows, Step(cfg, rows, s, es[0]), es[1..], task))
  }

  lemma {:induction false} NoticeWaits(cfg: B.Config, rows: Rows, s: State, es: seq<Event>, task: B.TaskId)
    requires Inv(s) && OneAwait(s) && EnabledRun(cfg, rows, s, es) && UniqueRun(cfg, rows, s, es)
    requires task in s.notifying && NoticeSent(task) !in es
    ensures var t := Run(cfg, rows, s, es);
      !RollsBackIn(cfg, rows, s, es, task) ==> task in t.notifying && t.notifying[task] == s.notifying[task]
    decreases |es|
  {
    if es != [] && !RollsBack(s, es[0], task) {
      assert es[0] in es;
      StepKeepsInv(cfg, rows, s, es[0]);
      NoticeWaits(cfg, rows, Step(cfg, rows, s, es[0]), es[1..], task);
    }
  }

  /** A timer that found its request pending queues a timeout for it once its notice is out, unless the delivery of that
      very registration fails first. */
  lemma NoticeTellsTimeout(cfg: B.Config, rows: Rows, s: State, task: B.TaskId, es: seq<Event>)
    requires Inv(s) && OneAwait(s) && Enabled(s, Broker(B.TimerFires(task))) && NoticeSent(task) !in es
    requires s.broker.timers[task].request in s.broker.pending
    requires var t := Step(cfg, rows, s, Broker(B.TimerFires(task)));
      EnabledRun(cfg, rows, t, es) && UniqueRun(cfg, rows, t, es) && !RollsBackIn(cfg, rows, t, es, task)
    ensures var t := Run(cfg, rows, Step(cfg, rows, s, Broker(B.TimerFires(task))), es);
      && Enabled(t, NoticeSent(task))
      && Step(cfg, rows, t, NoticeSent(task)).queue == t.queue + [Update(s.broker.timers[task].request, Timeout)]
  {
    StepKeepsInv(cfg, rows, s, Broker(B.TimerFires(task)));
    NoticeWaits(cfg, rows, Step(cfg, rows, s, Broker(B.TimerFires(task))), es, task);
  }

  /** A timer that is neither armed nor sending a notice, and never will be. */
  ghost predicate Silenced(s: State, task: B.TaskId) {
    task !in s.broker.timers && task !in s.notifying && task < s.broker.nextTask
  }

  lemma StepKeepsSilence(cfg: B.Config, rows: Rows, s: State, e: Event, task: B.TaskId)
    requires Silenced(s, task) && Enabled(s, e)
    ensures Silenced(Step(cfg, rows, s, e), task)
  {
    match e
    case Broker(RequestFrame(_, _, _)) =>
    case Broker(DeliveryEnds(_, _)) =>
    case Broker(b) => BA.QuietStep(cfg, s.broker, b);
    case AnswerSent(_) =>
    case NoticeSent(_) =>
    case OtherRow(_, _) =>
  }

  lemma {:induction false} StaysSilenced(cfg: B.Config, rows: Rows, s: State, es: seq<Event>, task: B.TaskId)
    requires Silenced(s, task) && EnabledRun(cfg, rows, s, es)
    ensures NoticeSent(task) !in es
    decreases |es|
  {
    if es != [] {
      StepKeepsSilence(cfg, rows, s, es[0], task);
      StaysSilenced(cfg, rows, Step(cfg, rows, s, es[0]), es[1..], task);
      assert forall e :: e in es <==> e == es[0] || e in es[1..];
    }
  }

  /** The broker underneath takes its own steps, and only those. */
  lemma StepsBroker(cfg: B.Config, rows: Rows, s: State, e: Event)
    requires Enabled(s, e)
    ensures Step(cfg, rows, s, e).broker == if e.Broker? then B.Step(cfg, s.broker, e.event) else s.broker
  {
    hide B.BeginRequest, B.EndRequest, B.Expire;
    match e
    case Broker(RequestFrame(_, _, _)) =>
    case Broker(DeliveryEnds(_, _)) =>
    case Broker(TimerFires(_)) =>
    case Broker(_) =>
    case _ =>
  }

  lemma {:induction false} RunKeepsDeliveries(cfg: B.Config, rows: Rows, s: State, es: seq<Event>)
    requires BA.OwnDeliveries(s.broker) && EnabledRun(cfg, rows, s, es)
    ensures BA.OwnDeliveries(Run(cfg, rows, s, es).broker)
    decreases |es|
  {
    if es != [] {
      StepsBroker(cfg, rows, s, es[0]);
      if es[0].Broker? {
        BA.StepKeepsDeliveries(cfg, s.broker, es[0].event);
      }
      hide Step, BA.OwnDeliveries;
      RunKeepsDeliveries(cfg, rows, Step(cfg, rows, s, es[0]), es[1..]);
    }
  }

  /** After a delivery has failed, no timeout of that registration is ever queued, even if its timer had fired. */
  lemma FailureSilencesTimer(cfg: B.Config, rows: Rows, before: seq<Event>, ws: B.Socket, after: seq<Event>)
    requires EnabledRun(cfg, rows, INITIAL, before)
    requires Enabled(Run(cfg, rows, INITIAL, before), Broker(B.DeliveryEnds(ws, false)))
    requires EnabledRun(cfg, rows, Step(cfg, rows, Run(cfg, rows, INITIAL, before), Broker(B.DeliveryEnds(ws, false))), after)
    ensures NoticeSent(Run(cfg, rows, INITIAL, before).broker.deliveries[ws].task) !in after
  {
    var s := Run(cfg, rows, INITIAL, before);
    RunKeepsDeliveries(cfg, rows, INITIAL, before);
    StaysSilenced(cfg, rows, Step(cfg, rows, s, Broker(B.DeliveryEnds(ws, false))), after, s.broker.deliveries[ws].task);
  }

  /** Any other message is audited at once, as delivered exactly if it was. */
  lemma OtherRowTells(cfg: B.Config, rows: Rows, s: State, id: MessageId, ok: bool)
    ensures var t := Step(cfg, rows, s, OtherRow(id, ok));
      && |t.queue| == |s.queue| + 1 && s.queue <= t.queue
      && t.queue[|s.queue|].Insert? && t.queue[|s.queue|].id == id
      && (t.queue[|s.queue|].row.status == Delivered <==> ok) && (t.queue[|s.queue|].row.status == Error <==> !ok)
      && t.queue[|s.queue|].row.(status := rows(id).status) == rows(id)
      && t.broker == s.broker && t.answering == s.answering && t.notifying == s.notifying
  {
  }
}

/** A run that lets a timeout overtake its row. */
module BrokerAuditRuns {
  import opened AuditModel
  import opened AuditProofs
  import opened BrokerAuditModel
  import opened BrokerAuditProofs
  import opened Wrappers
  import B = BrokerModel

  /** The timer of a request fires and sends its notice while the request is still being delivered. */
  const SLOW_DELIVERY: seq<Event> := [
    Broker(B.Accepted("a", 0)), Broker(B.Accepted("b", 1)), Broker(B.RequestFrame(0, "m", "b")),
    Broker(B.TimerFires(0)), NoticeSent(0), Broker(B.DeliveryEnds(0, true)), AnswerSent(0)]

  lemma Unroll(cfg: B.Config, rows: Rows, s: State, es: seq<Event>, t: State)
    requires es != [] && Enabled(s, es[0]) && t == Step(cfg, rows, s, es[0]) && EnabledRun(cfg, rows, t, es[1..])
    ensures EnabledRun(cfg, rows, s, es) && Run(cfg, rows, s, es) == Run(cfg, rows, t, es[1..])
    ensures UniqueRun(cfg, rows, s, es) <==> Unique(s, es[0]) && UniqueRun(cfg, rows, t, es[1..])
    ensures OvertakingRun(cfg, rows, s, es) <==> Overtakes(s, es[0]) || OvertakingRun(cfg, rows, t, es[1..])
  {
  }

  /** After the first three steps. */
  function Begun(cfg: B.Config, rows: Rows): (s: State)
    requires cfg.maxPending > 0
    ensures s.broker.handlers == map[0 := "a", 1 := "b"] && s.broker.deliveries == map[0 := B.Delivery("m", "a", 0, 1, true)]
    ensures s.broker.timers == map[0 := B.Timer("m", "a")] && "m" in s.broker.pending
    ensures s.answering == map[] && s.notifying == map[] && s.seen == {"m"} && s.queue == []
  {
    var s2 := Step(cfg, rows, Step(cfg, rows, INITIAL, Broker(B.Accepted("a", 0))), Broker(B.Accepted("b", 1)));
    Step(cfg, rows, s2, Broker(B.RequestFrame(0, "m", "b")))
  }

  lemma DeliveredAfterwards(cfg: B.Config, rows: Rows, s5: State)
    requires s5.broker.deliveries == map[0 := B.Delivery("m", "a", 0, 1, true)] && s5.answering == map[]
    ensures var es := SLOW_DELIVERY[5..];
      && EnabledRun(cfg, rows, s5, es) && UniqueRun(cfg, rows, s5, es)
      && Run(cfg, rows, s5, es).queue == s5.queue + [Insert("m", rows("m").(status := Delivered))]
  {
    var es := SLOW_DELIVERY;
    var s6 := Step(cfg, rows, s5, es[5]);
    var s7 := Step(cfg, rows, s6, es[6]);
    Unroll(cfg, rows, s6, es[6..], s7);
    Unroll(cfg, rows, s5, es[5..], s6);
  }

  lemma Overtaken(cfg: B.Config, rows: Rows, s3: State)
    requires s3.broker.deliveries == map[0 := B.Delivery("m", "a", 0, 1, true)]
    requires s3.broker.timers == map[0 := B.Timer("m", "a")] && "m" in s3.broker.pending
    requires s3.answering == map[] && s3.notifying == map[] && s3.queue == []
    ensures var es := SLOW_DELIVERY[3..];
      && EnabledRun(cfg, rows, s3, es) && UniqueRun(cfg, rows, s3, es) && OvertakingRun(cfg, rows, s3, es)
      && Run(cfg, rows, s3, es).queue == [Update("m", Timeout), Insert("m", rows("m").(status := Delivered))]
  {
    var es := SLOW_DELIVERY;
    var s4 := Step(cfg, rows, s3, es[3]);
    var s5 := Step(cfg, rows, s4, es[4]);
    assert s4.broker.deliveries == s3.broker.deliveries && s4.notifying == map[0 := "m"] && s4.queue == [];
    assert 0 in s4.broker.deliveries && Overtakes(s4, es[4]);
    assert s5.queue == [Update("m", Timeout)];
    DeliveredAfterwards(cfg, rows, s5);
    Unroll(cfg, rows, s4, es[4..], s5);
    Unroll(cfg, rows, s3, es[3..], s4);
  }

  lemma SlowDelivery(cfg: B.Config, rows: Rows)
    requires cfg.maxPending > 0
    ensures var es := SLOW_DELIVERY;
      && EnabledRun(cfg, rows, INITIAL, es) && UniqueRun(cfg, rows, INITIAL, es) && OvertakingRun(cfg, rows, INITIAL, es)
      && Run(cfg, rows, INITIAL, es).queue == [Update("m", Timeout), Insert("m", rows("m").(status := Delivered))]
  {
    var es := SLOW_DELIVERY;
    var s3 := Begun(cfg, rows);
    Overtaken(cfg, rows, s3);
    var s1 := Step(cfg, rows, INITIAL, es[0]);
    var s2 := Step(cfg, rows, s1, es[1]);
    Unroll(cfg, rows, s2, es[2..], s3);
    Unroll(cfg, rows, s1, es[1..], s2);
    assert es[0..] == es;
    Unroll(cfg, rows, INITIAL, es, s1);
  }

  /** It queues the status update before the row; in one batch the row ends up as timed out, in two as delivered. */
  lemma TimeoutCanComeFirst(cfg: B.Config, rows: Rows)
    requires cfg.maxPending > 0
    ensures var es := SLOW_DELIVERY;
      && EnabledRun(cfg, rows, INITIAL, es) && UniqueRun(cfg, rows, INITIAL, es) && OvertakingRun(cfg, rows, INITIAL, es)
    ensures var row := rows("m").(status := Delivered);
      var late, insert := Update("m", Timeout), Insert("m", row);
      && Run(cfg, rows, INITIAL, SLOW_DELIVERY).queue == [late, insert]
      && Lookup(ApplyBatches(map[], [[late, insert]]), "m") == Some(row.(status := Timeout))
      && Lookup(ApplyBatches(map[], [[late], [insert]]), "m") == Some(row)
  {
    hide EnabledRun, UniqueRun, OvertakingRun, Run, ApplyBatches, ApplyBatch, SLOW_DELIVERY;
    SlowDelivery(cfg, rows);
    TimeoutQueuedBeforeRow(rows("m").(status := Delivered));
  }
}
