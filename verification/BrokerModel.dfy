/** The tables of the message-bus broker and what each atomic step does to them.

A step is the code between two `await`s.  Sockets, timer tasks and coroutines that are suspended in a
delivery belong to the event loop rather than to the broker object; they are kept in the same state so
that every interleaving is a sequence of steps. */
module BrokerModel {
  type SandboxId = string
  type RequestId = string
  type Channel = string
  type Socket = nat
  type TaskId = nat

  datatype Config = Config(maxPending: nat, maxChannels: nat)

  /** An entry of the pending table: who asked, and the timer task that watches the request. */
  datatype Tracked = Tracked(requester: SandboxId, task: TaskId)

  /** What a timer task was started with. */
  datatype Timer = Timer(request: RequestId, requester: SandboxId)

  /** The locals of a request handler that is suspended in its `send` to the socket `target`; `open` says that the
      socket was open when the `send` began. */
  datatype Delivery = Delivery(request: RequestId, requester: SandboxId, task: TaskId, target: Socket, open: bool)

  datatype Cause = Replied | TimedOut | DeliveryFailed | RequesterLeft

  /** A registration (named by its timer task, which is never reused) left the pending table. */
  datatype Settlement = Settlement(task: TaskId, cause: Cause)

  datatype State = State(
    // The broker's own tables.
    connections: map<SandboxId, Socket>,
    socketOwner: map<Socket, SandboxId>,
    channels: map<Channel, set<SandboxId>>,
    sandboxChannels: map<SandboxId, set<Channel>>,
    pending: map<RequestId, Tracked>,
    counts: map<SandboxId, nat>,
    // The event loop: sockets with a handler, sockets that have closed (for good), armed timers, and handlers
    // suspended in a delivery.
    handlers: map<Socket, SandboxId>,
    closed: set<Socket>,
    timers: map<TaskId, Timer>,
    deliveries: map<Socket, Delivery>,
    nextTask: TaskId,
    // History: every removal from the pending table.
    settled: multiset<Settlement>)

  const EMPTY_STATE := State(map[], map[], map[], map[], map[], map[], map[], {}, map[], map[], 0, multiset{})

  /** What the caller of a handler, or the far side, gets to see. */
  datatype Response =
    | Silent
    | Ack
    | InvalidFrame
    | RateLimited
    | TargetOffline
    | ChannelFull
    | Forwarded(to: SandboxId)
    | RequesterGone

  function Count(counts: map<SandboxId, nat>, id: SandboxId): nat {
    if id in counts then counts[id] else 0
  }

  /** `counts[id] = max(0, counts.get(id, 1) - 1)` */
  function Decrement(counts: map<SandboxId, nat>, id: SandboxId): map<SandboxId, nat> {
    counts[id := if Count(counts, id) > 0 then counts[id] - 1 else 0]
  }

  // ---- connections -------------------------------------------------------------------------------

  /** A socket is accepted; its handler registers the sandbox unless the id is already connected. */
  function Register(s: State, id: SandboxId, ws: Socket): State {
    var t := s.(handlers := s.handlers[ws := id]);
    if id in s.connections then t
    else t.(connections := s.connections[id := ws], socketOwner := s.socketOwner[ws := id])
  }

  /** Removing `id` from the listed channels, and the channels this leaves empty. */
  function LeaveChannels(channels: map<Channel, set<SandboxId>>, listed: set<Channel>, id: SandboxId)
    : map<Channel, set<SandboxId>>
  {
    map c | c in channels && (c in listed && channels[c] != {} ==> channels[c] - {id} != {}) ::
      if c in listed then channels[c] - {id} else channels[c]
  }

  function RequestsOf(pending: map<RequestId, Tracked>, id: SandboxId): set<RequestId> {
    set rid | rid in pending && pending[rid].requester == id
  }

  function TasksOf(pending: map<RequestId, Tracked>, rids: set<RequestId>): set<TaskId> {
    set rid | rid in rids && rid in pending :: pending[rid].task
  }

  function Departures(tasks: set<TaskId>): set<Settlement> {
    set t | t in tasks :: Settlement(t, RequesterLeft)
  }

  /** The handler of `ws` ends; only the socket that holds the registration cleans up after the sandbox. */
  function Unregister(s: State, id: SandboxId, ws: Socket): State {
    if id !in s.connections || s.connections[id] != ws then
      s.(socketOwner := s.socketOwner - {ws}, handlers := s.handlers - {ws}, closed := s.closed + {ws})
    else
      var expired := RequestsOf(s.pending, id);
      var tasks := TasksOf(s.pending, expired);
      var listed := if id in s.sandboxChannels then s.sandboxChannels[id] else {};
      s.(connections := s.connections - {id},
         socketOwner := s.socketOwner - {ws},
         channels := LeaveChannels(s.channels, listed, id),
         sandboxChannels := s.sandboxChannels - {id},
         pending := s.pending - expired,
         counts := s.counts - {id},
         handlers := s.handlers - {ws},
         closed := s.closed + {ws},
         timers := s.timers - tasks,
         settled := s.settled + multiset(Departures(tasks)))
  }

  // ---- requests ----------------------------------------------------------------------------------

  /** The guards in front of a registration, in the order of the code. */
  function RequestGuard(cfg: Config, s: State, sender: SandboxId, to: SandboxId): Response {
    if to == "" then InvalidFrame
    else if Count(s.counts, sender) >= cfg.maxPending then RateLimited
    else if to !in s.connections then TargetOffline
    else Forwarded(to)
  }

  /** First half of a request: register it, arm its timer, and suspend in the delivery. */
  function BeginRequest(cfg: Config, s: State, sender: SandboxId, ws: Socket, rid: RequestId, to: SandboxId)
    : (State, Response)
  {
    var response := RequestGuard(cfg, s, sender, to);
    if !response.Forwarded? then (s, response)
    else
      var target := s.connections[to];
      (s.(pending := s.pending[rid := Tracked(sender, s.nextTask)],
          counts := s.counts[sender := Count(s.counts, sender) + 1],
          timers := s.timers[s.nextTask := Timer(rid, sender)],
          deliveries := s.deliveries[ws := Delivery(rid, sender, s.nextTask, target, target !in s.closed)],
          nextTask := s.nextTask + 1),
       response)
  }

  /** Second half of a request: the delivery returned, or the target's socket turned out to be closed. */
  function EndRequest(s: State, ws: Socket, ok: bool): (State, Response)
    requires ws in s.deliveries
  {
    var d := s.deliveries[ws];
    var t := s.(deliveries := s.deliveries - {ws});
    if ok then (t, Ack)
    else
      (t.(pending := s.pending - {d.request},
          timers := s.timers - {d.task},
          counts := Decrement(s.counts, d.requester),
          settled := s.settled + (if d.request in s.pending
                                  then multiset{Settlement(s.pending[d.request].task, DeliveryFailed)}
                                  else multiset{})),
       TargetOffline)
  }

  function Reply(s: State, replyTo: RequestId): (State, Response) {
    if replyTo == "" || replyTo !in s.pending then (s, InvalidFrame)
    else
      var tracked := s.pending[replyTo];
      (s.(pending := s.pending - {replyTo},
          timers := s.timers - {tracked.task},
          counts := Decrement(s.counts, tracked.requester),
          settled := s.settled + multiset{Settlement(tracked.task, Replied)}),
       if tracked.requester in s.connections then Forwarded(tracked.requester) else RequesterGone)
  }

  /** A timer task wakes up. */
  function Expire(s: State, task: TaskId): (State, Response)
    requires task in s.timers
  {
    var timer := s.timers[task];
    var t := s.(timers := s.timers - {task});
    if timer.request !in s.pending then (t, Silent)
    else
      (t.(pending := s.pending - {timer.request},
          counts := Decrement(s.counts, timer.requester),
          settled := s.settled + multiset{Settlement(s.pending[timer.request].task, TimedOut)}),
       if timer.requester in s.connections then Forwarded(timer.requester) else Silent)
  }

  // ---- channels ----------------------------------------------------------------------------------

  function Subscribe(cfg: Config, s: State, sender: SandboxId, ch: Channel): (State, Response) {
    if ch == "" then (s, InvalidFrame)
    else
      var mine := if sender in s.sandboxChannels then s.sandboxChannels[sender] else {};
      if |mine| >= cfg.maxChannels then
        (s.(sandboxChannels := s.sandboxChannels[sender := mine]), ChannelFull)
      else
        var subs := if ch in s.channels then s.channels[ch] else {};
        (s.(channels := s.channels[ch := subs + {sender}],
            sandboxChannels := s.sandboxChannels[sender := mine + {ch}]),
         Ack)
  }

  function Unsubscribe(s: State, sender: SandboxId, ch: Channel): (State, Response) {
    if ch == "" then (s, InvalidFrame)
    else
      (s.(channels := LeaveChannels(s.channels, {ch}, sender),
          sandboxChannels := if sender in s.sandboxChannels
                             then s.sandboxChannels[sender := s.sandboxChannels[sender] - {ch}]
                             else s.sandboxChannels),
       Ack)
  }

  // ---- runs --------------------------------------------------------------------------------------

  datatype Event =
    | Accepted(id: SandboxId, ws: Socket)
    | SocketCloses(ws: Socket)             // the connection ends; the handler has not noticed yet
    | Closed(ws: Socket)                   // the handler ends, and with it the connection
    | RequestFrame(ws: Socket, rid: RequestId, to: SandboxId)
    | DeliveryEnds(ws: Socket, ok: bool)
    | ReplyFrame(ws: Socket, replyTo: RequestId)
    | SubscribeFrame(ws: Socket, ch: Channel)
    | UnsubscribeFrame(ws: Socket, ch: Channel)
    | TimerFires(task: TaskId)

  /** When the event loop can take a step.  A handler reads its next frame (perhaps one received before the socket
      closed), or ends, only when it is not suspended in a delivery.  A `send` raises only on a closed socket, and
      returns only if the socket was open when it began. */
  predicate Enabled(s: State, e: Event) {
    match e
    case Accepted(_, ws) => ws !in s.handlers && ws !in s.closed
    case SocketCloses(ws) => ws in s.handlers && ws !in s.closed
    case Closed(ws) => ws in s.handlers && ws !in s.deliveries
    case RequestFrame(ws, _, _) => ws in s.handlers && ws !in s.deliveries
    case DeliveryEnds(ws, ok) =>
      ws in s.deliveries && if ok then s.deliveries[ws].open else s.deliveries[ws].target in s.closed
    case ReplyFrame(ws, _) => ws in s.handlers && ws !in s.deliveries
    case SubscribeFrame(ws, _) => ws in s.handlers && ws !in s.deliveries
    case UnsubscribeFrame(ws, _) => ws in s.handlers && ws !in s.deliveries
    case TimerFires(task) => task in s.timers
  }

  function Step(cfg: Config, s: State, e: Event): State
    requires Enabled(s, e)
  {
    match e
    case Accepted(id, ws) => Register(s, id, ws)
    case SocketCloses(ws) => s.(closed := s.closed + {ws})
    case Closed(ws) => Unregister(s, s.handlers[ws], ws)
    case RequestFrame(ws, rid, to) => BeginRequest(cfg, s, s.handlers[ws], ws, rid, to).0
    case DeliveryEnds(ws, ok) => EndRequest(s, ws, ok).0
    case ReplyFrame(ws, replyTo) => Reply(s, replyTo).0
    case SubscribeFrame(ws, ch) => Subscribe(cfg, s, s.handlers[ws], ch).0
    case UnsubscribeFrame(ws, ch) => Unsubscribe(s, s.handlers[ws], ch).0
    case TimerFires(task) => Expire(s, task).0
  }

  predicate EnabledRun(cfg: Config, s: State, es: seq<Event>)
    decreases |es|
  {
    es == [] || (Enabled(s, es[0]) && EnabledRun(cfg, Step(cfg, s, es[0]), es[1..]))
  }

  /** The state after a run. */
  function Run(cfg: Config, s: State, es: seq<Event>): State
    requires EnabledRun(cfg, s, es)
    decreases |es|
  {
    if es == [] then s else Run(cfg, Step(cfg, s, es[0]), es[1..])
  }
}
