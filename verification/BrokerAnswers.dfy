/** What the far side is told, and what a step changes, in terms of the tables alone. */
module BrokerAnswers {
  import opened BrokerModel
  import opened BrokerProofs

  function ChannelsOf(channels: map<Channel, set<SandboxId>>, id: SandboxId): set<Channel> {
    set ch | ch in channels && id in channels[ch]
  }

  predicate Subscribed(channels: map<Channel, set<SandboxId>>, ch: Channel, id: SandboxId) {
    ch in channels && id in channels[ch]
  }

  /** Nothing but the request tables is different. */
  predicate OnlyRequests(s: State, t: State) {
    && t.connections == s.connections && t.socketOwner == s.socketOwner && t.handlers == s.handlers && t.closed == s.closed
    && t.channels == s.channels && t.sandboxChannels == s.sandboxChannels
  }

  /** The pending table without `rid` is as it was. */
  ghost predicate OthersPending(s: State, t: State, rid: RequestId) {
    forall other :: other != rid ==>
      (other in s.pending <==> other in t.pending) && (other in s.pending ==> t.pending[other] == s.pending[other])
  }

  // ---- requests ----------------------------------------------------------------------------------

  /** The four answers to a request exclude each other, and the sender's own entries are what is limited. */
  lemma RequestAnswer(cfg: Config, s: State, ws: Socket, rid: RequestId, to: SandboxId)
    requires Inv(cfg, s) && Enabled(s, RequestFrame(ws, rid, to))
    ensures var sender := s.handlers[ws];
      var inFlight := |RequestsOf(s.pending, sender)|;
      var (t, answer) := BeginRequest(cfg, s, sender, ws, rid, to);
      && (answer == InvalidFrame <==> to == "")
      && (answer == RateLimited <==> to != "" && inFlight == cfg.maxPending)
      && (answer == TargetOffline <==> to != "" && inFlight < cfg.maxPending && to !in s.connections)
      && (answer == Forwarded(to) <==> to != "" && inFlight < cfg.maxPending && to in s.connections)
      && (answer != Forwarded(to) ==> t == s)
  {
    var sender := s.handlers[ws];
    assert Count(s.counts, sender) == |RequestsOf(s.pending, sender)| <= cfg.maxPending;
  }

  /** A forwarded request is pending for its sender, and watched by a fresh timer. */
  lemma ForwardedIsPending(cfg: Config, s: State, ws: Socket, rid: RequestId, to: SandboxId)
    requires Inv(cfg, s) && Enabled(s, RequestFrame(ws, rid, to)) && to in s.connections
    requires BeginRequest(cfg, s, s.handlers[ws], ws, rid, to).1 == Forwarded(to)
    ensures var t := BeginRequest(cfg, s, s.handlers[ws], ws, rid, to).0;
      && rid in t.pending && t.pending[rid].requester == s.handlers[ws] && OthersPending(s, t, rid)
      && t.pending[rid].task !in s.timers && t.pending[rid].task in t.timers
      && t.timers[t.pending[rid].task] == Timer(rid, s.handlers[ws])
      && Count(t.counts, s.handlers[ws]) == Count(s.counts, s.handlers[ws]) + 1
      && t.settled == s.settled && OnlyRequests(s, t)
  {
    assert s.nextTask !in s.timers by {
      assert TimesSettled(s.settled, s.nextTask) + (if s.nextTask in s.timers then 1 else 0) == 0;
    }
    hide Inv;
  }

  /** It is on its way to the target's socket, and can be acknowledged only if that socket was open. */
  lemma ForwardedIsDelivered(cfg: Config, s: State, ws: Socket, rid: RequestId, to: SandboxId)
    requires Enabled(s, RequestFrame(ws, rid, to)) && to in s.connections
    requires BeginRequest(cfg, s, s.handlers[ws], ws, rid, to).1 == Forwarded(to)
    ensures var t := BeginRequest(cfg, s, s.handlers[ws], ws, rid, to).0;
      && ws in t.deliveries && t.deliveries - {ws} == s.deliveries
      && rid in t.pending && t.deliveries[ws].request == rid && t.deliveries[ws].task == t.pending[rid].task
      && t.deliveries[ws].requester == s.handlers[ws] && t.deliveries[ws].target == s.connections[to]
      && (Enabled(t, DeliveryEnds(ws, true)) <==> s.connections[to] !in s.closed)
  {
  }

  /** The sender is told Ack exactly if the delivery returned, and then nothing is undone; it is told that the target is
      offline exactly if the delivery raised, and then the request is pending no longer. */
  lemma DeliveryAnswer(s: State, ws: Socket, ok: bool)
    requires Enabled(s, DeliveryEnds(ws, ok))
    ensures var (d, (t, answer)) := (s.deliveries[ws], EndRequest(s, ws, ok));
      && (answer == Ack <==> ok) && (answer == TargetOffline <==> !ok)
      && (ok ==> t.pending == s.pending && t.timers == s.timers && t.counts == s.counts && t.settled == s.settled)
      && (!ok ==> d.request !in t.pending && d.task !in t.timers)
      && OthersPending(s, t, d.request) && OnlyRequests(s, t)
      && t.deliveries == s.deliveries - {ws} && t.nextTask == s.nextTask
  {
  }

  /** In turn, a rollback settles its own registration, as failed. */
  lemma RollbackSettles(cfg: Config, s: State, ws: Socket)
    requires Enabled(s, DeliveryEnds(ws, false)) && Disciplined(cfg, s, DeliveryEnds(ws, false))
    requires s.deliveries[ws].request in s.pending
    ensures EndRequest(s, ws, false).0.settled == s.settled + multiset{Settlement(s.deliveries[ws].task, DeliveryFailed)}
  {
  }

  /** A requester with a pending request has a positive count. */
  lemma OwnCount(cfg: Config, s: State, rid: RequestId)
    requires Inv(cfg, s) && rid in s.pending
    ensures Count(s.counts, s.pending[rid].requester) > 0
  {
    var requester := s.pending[rid].requester;
    assert rid in RequestsOf(s.pending, requester);
    assert Count(s.counts, requester) == |RequestsOf(s.pending, requester)|;
  }

  /** A reply to a pending request goes to its requester and settles exactly that request; any other is refused. */
  lemma ReplyAnswer(cfg: Config, s: State, ws: Socket, replyTo: RequestId)
    requires Inv(cfg, s) && Enabled(s, ReplyFrame(ws, replyTo))
    ensures var (t, answer) := Reply(s, replyTo);
      if replyTo != "" && replyTo in s.pending then
        var tracked := s.pending[replyTo];
        && answer == Forwarded(tracked.requester) && tracked.requester in s.connections
        && replyTo !in t.pending && OthersPending(s, t, replyTo) && t.timers == s.timers - {tracked.task}
        && Count(t.counts, tracked.requester) == Count(s.counts, tracked.requester) - 1
        && t.settled == s.settled + multiset{Settlement(tracked.task, Replied)}
        && t.deliveries == s.deliveries && OnlyRequests(s, t)
      else answer == InvalidFrame && t == s
  {
    if replyTo != "" && replyTo in s.pending {
      OwnCount(cfg, s, replyTo);
    }
  }

  /** A timer that wakes up settles its own request, and its requester is there to be told. */
  lemma ExpiryAnswer(cfg: Config, s: State, task: TaskId)
    requires Inv(cfg, s) && task in s.timers
    ensures var (timer, (t, answer)) := (s.timers[task], Expire(s, task));
      && answer == Forwarded(timer.requester) && timer.requester in s.connections
      && timer.request in s.pending && timer.request !in t.pending && OthersPending(s, t, timer.request)
      && t.timers == s.timers - {task}
      && Count(t.counts, timer.requester) == Count(s.counts, timer.requester) - 1
      && t.settled == s.settled + multiset{Settlement(task, TimedOut)}
      && t.deliveries == s.deliveries && OnlyRequests(s, t)
  {
    OwnCount(cfg, s, s.timers[task].request);
  }

  // ---- what an answer is worth -------------------------------------------------------------------

  /** No two suspended handlers deliver the same registration. */
  ghost predicate OwnDeliveries(s: State) {
    && (forall ws :: ws in s.deliveries ==> s.deliveries[ws].task < s.nextTask)
    && (forall a, b :: a in s.deliveries && b in s.deliveries && s.deliveries[a].task == s.deliveries[b].task ==> a == b)
  }

  lemma NewDeliveryKeepsOthers(s: State, t: State, ws: Socket)
    requires OwnDeliveries(s)
    requires t == s || (t.nextTask == s.nextTask + 1 && t.deliveries - {ws} == s.deliveries - {ws}
                        && ws in t.deliveries && t.deliveries[ws].task == s.nextTask)
    ensures OwnDeliveries(t)
  {
    if t != s {
      forall a | a in t.deliveries && a != ws
        ensures a in s.deliveries && t.deliveries[a] == s.deliveries[a]
      {
        assert a in t.deliveries - {ws};
        assert (t.deliveries - {ws})[a] == (s.deliveries - {ws})[a];
      }
    }
  }

  /** No delivery begins, ends or fails, and no timer is armed. */
  ghost predicate Quiet(s: State, t: State) {
    && t.deliveries == s.deliveries && t.nextTask == s.nextTask
    && (forall task :: task in t.timers ==> task in s.timers && t.timers[task] == s.timers[task])
    && forall task :: t.settled[Settlement(task, DeliveryFailed)] == s.settled[Settlement(task, DeliveryFailed)]
  }

  lemma RegisterQuiet(s: State, id: SandboxId, ws: Socket)
    ensures Quiet(s, Register(s, id, ws))
  {
    var t := s.(handlers := s.handlers[ws := id]);
    assert Quiet(s, t);
  }

  lemma UnregisterQuiet(s: State, id: SandboxId, ws: Socket)
    ensures Quiet(s, Unregister(s, id, ws))
  {
    if id in s.connections && s.connections[id] == ws {
      forall task
        ensures Settlement(task, DeliveryFailed) !in Departures(TasksOf(s.pending, RequestsOf(s.pending, id)))
      {
      }
      hide LeaveChannels, RequestsOf, TasksOf, Departures;
    } else {
      assert Quiet(s, s.(socketOwner := s.socketOwner - {ws}, handlers := s.handlers - {ws}, closed := s.closed + {ws}));
    }
  }

  lemma ReplyQuiet(s: State, replyTo: RequestId)
    ensures Quiet(s, Reply(s, replyTo).0)
  {
    if replyTo == "" || replyTo !in s.pending {
      assert Reply(s, replyTo).0 == s;
    } else {
      assert Reply(s, replyTo).0.deliveries == s.deliveries;
    }
  }

  lemma ExpireQuiet(s: State, task: TaskId)
    requires task in s.timers
    ensures Quiet(s, Expire(s, task).0)
  {
    if s.timers[task].request !in s.pending {
      assert Expire(s, task).0 == s.(timers := s.timers - {task});
    } else {
      assert Expire(s, task).0.deliveries == s.deliveries;
    }
  }

  lemma SubscribeQuiet(cfg: Config, s: State, id: SandboxId, ch: Channel)
    ensures Quiet(s, Subscribe(cfg, s, id, ch).0)
  {
    if ch == "" {
      assert Subscribe(cfg, s, id, ch).0 == s;
    } else {
      SubscribedState(cfg, s, id, ch);
      hide Subscribe, Joined, Listed;
    }
  }

  lemma UnsubscribeQuiet(s: State, id: SandboxId, ch: Channel)
    ensures Quiet(s, Unsubscribe(s, id, ch).0)
  {
    hide LeaveChannels;
    if ch == "" {
      assert Unsubscribe(s, id, ch).0 == s;
    }
  }

  lemma ClosingQuiet(s: State, ws: Socket)
    ensures Quiet(s, s.(closed := s.closed + {ws}))
  {
  }

  lemma QuietStep(cfg: Config, s: State, e: Event)
    requires Enabled(s, e) && !e.RequestFrame? && !e.DeliveryEnds?
    ensures Quiet(s, Step(cfg, s, e))
  {
    hide Quiet;
    match e
    case Accepted(id, ws) => RegisterQuiet(s, id, ws);
    case SocketCloses(ws) => ClosingQuiet(s, ws);
    case Closed(ws) => UnregisterQuiet(s, s.handlers[ws], ws);
    case ReplyFrame(_, replyTo) => ReplyQuiet(s, replyTo);
    case SubscribeFrame(ws, ch) => SubscribeQuiet(cfg, s, s.handlers[ws], ch);
    case UnsubscribeFrame(ws, ch) => UnsubscribeQuiet(s, s.handlers[ws], ch);
    case TimerFires(task) => ExpireQuiet(s, task);
  }

  lemma StepKeepsDeliveries(cfg: Config, s: State, e: Event)
    requires OwnDeliveries(s) && Enabled(s, e)
    ensures OwnDeliveries(Step(cfg, s, e))
  {
    match e
    case RequestFrame(ws, rid, to) =>
      var t := Step(cfg, s, e);
      assert t == s || (t.nextTask == s.nextTask + 1 && t.deliveries - {ws} == s.deliveries - {ws}
                        && ws in t.deliveries && t.deliveries[ws].task == s.nextTask);
      NewDeliveryKeepsOthers(s, t, ws);
    case DeliveryEnds(ws, ok) => DeliveryAnswer(s, ws, ok);
    case _ => QuietStep(cfg, s, e);
  }

  lemma StepRollsBackOnlyItsOwn(cfg: Config, s: State, e: Event, task: TaskId)
    requires Enabled(s, e) && Disciplined(cfg, s, e)
    requires task < s.nextTask && s.settled[Settlement(task, DeliveryFailed)] == 0
    requires forall ws :: ws in s.deliveries ==> s.deliveries[ws].task != task
    ensures var t := Step(cfg, s, e);
      && t.settled[Settlement(task, DeliveryFailed)] == 0 && task < t.nextTask
      && forall ws :: ws in t.deliveries ==> t.deliveries[ws].task != task
  {
    if !e.RequestFrame? && !e.DeliveryEnds? {
      QuietStep(cfg, s, e);
      hide Step;
    }
  }

  /** A registration that no handler is delivering is never rolled back. */
  lemma {:induction false} AckedIsNeverRolledBack(cfg: Config, s: State, es: seq<Event>, task: TaskId)
    requires EnabledRun(cfg, s, es) && DisciplinedRun(cfg, s, es) && OwnDeliveries(s)
    requires task < s.nextTask && s.settled[Settlement(task, DeliveryFailed)] == 0
    requires forall ws :: ws in s.deliveries ==> s.deliveries[ws].task != task
    ensures Run(cfg, s, es).settled[Settlement(task, DeliveryFailed)] == 0
    decreases |es|
  {
    if es != [] {
      StepKeepsDeliveries(cfg, s, es[0]);
      StepRollsBackOnlyItsOwn(cfg, s, es[0], task);
      AckedIsNeverRolledBack(cfg, Step(cfg, s, es[0]), es[1..], task);
    }
  }

  /** What is being delivered has not failed yet. */
  ghost predicate Undecided(s: State) {
    forall ws :: ws in s.deliveries ==> s.settled[Settlement(s.deliveries[ws].task, DeliveryFailed)] == 0
  }

  lemma RequestKeepsUndecided(cfg: Config, s: State, sender: SandboxId, ws: Socket, rid: RequestId, to: SandboxId)
    requires SettledOnce(s.settled, s.timers, s.nextTask) && Undecided(s)
    ensures Undecided(BeginRequest(cfg, s, sender, ws, rid, to).0)
  {
    assert TimesSettled(s.settled, s.nextTask) + (if s.nextTask in s.timers then 1 else 0) == 0;
  }

  lemma FailureKeepsUndecided(s: State, ws: Socket)
    requires OwnDeliveries(s) && Undecided(s) && ws in s.deliveries
    requires s.deliveries[ws].request in s.pending ==> s.pending[s.deliveries[ws].request].task == s.deliveries[ws].task
    ensures Undecided(EndRequest(s, ws, false).0)
  {
    hide Decrement;
    forall other | other in s.deliveries && other != ws
      ensures s.deliveries[other].task != s.deliveries[ws].task
    {
    }
    hide OwnDeliveries;
  }

  lemma StepKeepsUndecided(cfg: Config, s: State, e: Event)
    requires SettledOnce(s.settled, s.timers, s.nextTask) && OwnDeliveries(s) && Undecided(s)
    requires Enabled(s, e) && Disciplined(cfg, s, e)
    ensures Undecided(Step(cfg, s, e))
  {
    if e.RequestFrame? {
      RequestKeepsUndecided(cfg, s, s.handlers[e.ws], e.ws, e.rid, e.to);
      hide Undecided;
    } else if !e.DeliveryEnds? {
      QuietStep(cfg, s, e);
      hide Step;
    } else if !e.ok {
      FailureKeepsUndecided(s, e.ws);
      hide Undecided;
    }
  }

  lemma {:induction false} RunKeepsUndecided(cfg: Config, s: State, es: seq<Event>)
    requires Inv(cfg, s) && OwnDeliveries(s) && Undecided(s) && EnabledRun(cfg, s, es) && DisciplinedRun(cfg, s, es)
    ensures OwnDeliveries(Run(cfg, s, es)) && Undecided(Run(cfg, s, es))
    decreases |es|
  {
    if es != [] {
      StepExact(cfg, s, es[0]);
      StepKeepsDeliveries(cfg, s, es[0]);
      StepKeepsUndecided(cfg, s, es[0]);
      RunKeepsUndecided(cfg, Step(cfg, s, es[0]), es[1..]);
    }
  }

  /** In every disciplined run: a request whose sender was told Ack is never rolled back afterwards; only a reply, a
      timeout or the departure of its requester can settle it. */
  lemma AckIsKept(cfg: Config, before: seq<Event>, ws: Socket, after: seq<Event>)
    requires EnabledRun(cfg, EMPTY_STATE, before) && DisciplinedRun(cfg, EMPTY_STATE, before)
    requires Enabled(Run(cfg, EMPTY_STATE, before), DeliveryEnds(ws, true))
    requires EndRequest(Run(cfg, EMPTY_STATE, before), ws, true).1 == Ack
    requires EnabledRun(cfg, EndRequest(Run(cfg, EMPTY_STATE, before), ws, true).0, after)
    requires DisciplinedRun(cfg, EndRequest(Run(cfg, EMPTY_STATE, before), ws, true).0, after)
    ensures var s := Run(cfg, EMPTY_STATE, before);
      Run(cfg, EndRequest(s, ws, true).0, after).settled[Settlement(s.deliveries[ws].task, DeliveryFailed)] == 0
  {
    var s := Run(cfg, EMPTY_STATE, before);
    InitialInv(cfg);
    RunKeepsUndecided(cfg, EMPTY_STATE, before);
    DeliveryAnswer(s, ws, true);
    AckedIsNeverRolledBack(cfg, EndRequest(s, ws, true).0, after, s.deliveries[ws].task);
  }

  // ---- connections and channels ------------------------------------------------------------------

  lemma OneEntry<K, V>(m: map<K, V>, k: K, v: V)
    ensures m[k := v] - {k} == m - {k}
    ensures k !in m ==> m - {k} == m
  {
  }

  /** Whoever comes first has the registration of an id; a later socket gets a handler, and nothing else. */
  lemma AcceptanceAnswer(s: State, id: SandboxId, ws: Socket)
    requires Enabled(s, Accepted(id, ws))
    ensures var t := Register(s, id, ws);
      && ws in t.handlers && t.handlers[ws] == id && t.handlers - {ws} == s.handlers
      && id in t.connections && t.connections[id] == (if id in s.connections then s.connections[id] else ws)
      && t.connections - {id} == s.connections - {id}
      && t.socketOwner == (if id in s.connections then s.socketOwner else s.socketOwner[ws := id])
      && t.(handlers := s.handlers, connections := s.connections, socketOwner := s.socketOwner) == s
  {
    OneEntry(s.handlers, ws, id);
    OneEntry(s.connections, id, ws);
  }

  lemma DeparturesAre(tasks: set<TaskId>, task: TaskId, cause: Cause)
    ensures Settlement(task, cause) in Departures(tasks) <==> cause == RequesterLeft && task in tasks
  {
  }

  /** Whoever leaves settles all requests of its own, as abandoned, and nothing else. */
  lemma DepartureSettlesOwn(cfg: Config, s: State, ws: Socket, task: TaskId, cause: Cause)
    requires TimersMatch(s.pending, s.timers) && Enabled(s, Closed(ws))
    ensures var (id, t) := (s.handlers[ws], Step(cfg, s, Closed(ws)));
      var leaves := id in s.connections && s.connections[id] == ws && cause == RequesterLeft
                    && task in s.timers && s.timers[task].requester == id;
      t.settled[Settlement(task, cause)] == s.settled[Settlement(task, cause)] + if leaves then 1 else 0
  {
    var id := s.handlers[ws];
    if id in s.connections && s.connections[id] == ws {
      var tasks := TasksOf(s.pending, RequestsOf(s.pending, id));
      TasksOfRequester(s.pending, s.timers, id);
      hide TasksOf, RequestsOf, LeaveChannels, TimersMatch;
      DeparturesAre(tasks, task, cause);
      hide Departures;
      assert Step(cfg, s, Closed(ws)).settled == s.settled + multiset(Departures(tasks));
    }
  }

  lemma SubscribeVerdict(cfg: Config, s: State, sender: SandboxId, ch: Channel)
    requires ch != ""
    ensures var own := if sender in s.sandboxChannels then s.sandboxChannels[sender] else {};
      Subscribe(cfg, s, sender, ch).1 == if |own| >= cfg.maxChannels then ChannelFull else Ack
  {
  }

  /** The sandbox's own list is what the channel table says. */
  lemma OwnChannels(cfg: Config, s: State, id: SandboxId)
    requires Inv(cfg, s)
    ensures ChannelsOf(s.channels, id) == if id in s.sandboxChannels then s.sandboxChannels[id] else {}
    ensures |ChannelsOf(s.channels, id)| <= cfg.maxChannels
  {
  }

  /** A subscription is refused exactly if the sender already has as many channels as it may. */
  lemma SubscribeAnswer(cfg: Config, s: State, sender: SandboxId, ch: Channel)
    requires Inv(cfg, s)
    ensures var (answer, full) := (Subscribe(cfg, s, sender, ch).1, |ChannelsOf(s.channels, sender)| == cfg.maxChannels);
      && (answer == InvalidFrame <==> ch == "")
      && (answer == ChannelFull <==> ch != "" && full)
      && (answer == Ack <==> ch != "" && !full)
  {
    OwnChannels(cfg, s, sender);
    hide Inv, ChannelsOf;
    if ch != "" {
      SubscribeVerdict(cfg, s, sender, ch);
      hide Subscribe;
    }
  }

  lemma JoinedSubscribes(channels: map<Channel, set<SandboxId>>, ch: Channel, id: SandboxId)
    ensures forall c, i :: Subscribed(Joined(channels, ch, id), c, i) <==>
                           Subscribed(channels, c, i) || (c == ch && i == id)
  {
  }

  /** An acknowledged subscription adds this channel for this sender; nobody's other subscriptions change, and a refused
      one changes none. */
  lemma SubscribeEffect(cfg: Config, s: State, sender: SandboxId, ch: Channel)
    ensures var (t, answer) := Subscribe(cfg, s, sender, ch);
      && (forall c, i :: Subscribed(t.channels, c, i) <==>
                         Subscribed(s.channels, c, i) || (answer == Ack && c == ch && i == sender))
      && t.(channels := s.channels, sandboxChannels := s.sandboxChannels) == s
  {
    JoinedSubscribes(s.channels, ch, sender);
    if ch != "" {
      SubscribedState(cfg, s, sender, ch);
      SubscribeVerdict(cfg, s, sender, ch);
      hide Subscribe, Listed, Joined, Subscribed;
    }
  }

  lemma LeavingUnsubscribes(channels: map<Channel, set<SandboxId>>, listed: set<Channel>, id: SandboxId)
    ensures forall c, i :: Subscribed(LeaveChannels(channels, listed, id), c, i) <==>
                           Subscribed(channels, c, i) && !(c in listed && i == id)
  {
    forall c, i | Subscribed(channels, c, i) && !(c in listed && i == id)
      ensures Subscribed(LeaveChannels(channels, listed, id), c, i)
    {
      if c in listed {
        assert i in channels[c] - {id};
      }
    }
  }

  /** Unsubscribing takes the sender out of this channel and changes nobody's other subscriptions. */
  lemma UnsubscribeAnswer(s: State, sender: SandboxId, ch: Channel)
    ensures var (t, answer) := Unsubscribe(s, sender, ch);
      && answer == (if ch == "" then InvalidFrame else Ack)
      && (forall c, i :: Subscribed(t.channels, c, i) <==>
                         Subscribed(s.channels, c, i) && !(answer == Ack && c == ch && i == sender))
      && t.(channels := s.channels, sandboxChannels := s.sandboxChannels) == s
  {
    LeavingUnsubscribes(s.channels, {ch}, sender);
    hide LeaveChannels, Subscribed;
  }
}
