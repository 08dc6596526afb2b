/** What the broker's tables keep, step by step and over whole runs. */
module BrokerProofs {
  import opened BrokerModel

  // ---- the invariant, table by table -------------------------------------------------------------

  /** The connection table and its inverse agree, and every registered socket has a live handler. */
  ghost predicate RegistryOk(connections: map<SandboxId, Socket>, owner: map<Socket, SandboxId>,
                             handlers: map<Socket, SandboxId>) {
    && (forall id :: id in connections ==>
          && connections[id] in owner && owner[connections[id]] == id
          && connections[id] in handlers && handlers[connections[id]] == id)
    && (forall ws :: ws in owner ==> owner[ws] in connections && connections[owner[ws]] == ws)
  }

  /** `channels` and `mine` list the same subscriptions. */
  ghost predicate Inverse(channels: map<Channel, set<SandboxId>>, mine: map<SandboxId, set<Channel>>) {
    && (forall ch, id :: ch in channels && id in channels[ch] ==> id in mine && ch in mine[id])
    && (forall ch, id :: id in mine && ch in mine[id] ==> ch in channels && id in channels[ch])
  }

  ghost predicate Limited(limit: nat, mine: map<SandboxId, set<Channel>>) {
    forall id :: id in mine ==> |mine[id]| <= limit
  }

  /** The channel tables are exact inverses, no channel is empty, limits hold, subscribers are connected. */
  ghost predicate ChannelsOk(limit: nat, channels: map<Channel, set<SandboxId>>,
                             mine: map<SandboxId, set<Channel>>, connected: set<SandboxId>) {
    && mine.Keys <= connected
    && Inverse(channels, mine)
    && (forall ch :: ch in channels ==> channels[ch] != {})
    && Limited(limit, mine)
  }

  /** Pending entries and armed timers correspond one to one. */
  ghost predicate TimersMatch(pending: map<RequestId, Tracked>, timers: map<TaskId, Timer>) {
    && (forall rid :: rid in pending ==>
          pending[rid].task in timers && timers[pending[rid].task] == Timer(rid, pending[rid].requester))
    && (forall task :: task in timers ==>
          timers[task].request in pending && pending[timers[task].request] == Tracked(timers[task].requester, task))
  }

  /** Every pending request belongs to a connected sandbox, as does every count. */
  ghost predicate RequestersConnected(pending: map<RequestId, Tracked>, counts: map<SandboxId, nat>,
                                      connected: set<SandboxId>) {
    && (forall rid :: rid in pending ==> pending[rid].requester in connected)
    && counts.Keys <= connected
  }

  /** Each count is the number of pending entries of that sandbox, and is within the limit. */
  ghost predicate CountsExact(limit: nat, counts: map<SandboxId, nat>, pending: map<RequestId, Tracked>) {
    forall id :: Count(counts, id) == |RequestsOf(pending, id)| <= limit
  }

  ghost predicate DeliveriesOk(deliveries: map<Socket, Delivery>, timers: map<TaskId, Timer>, nextTask: TaskId) {
    forall ws :: ws in deliveries ==>
      && deliveries[ws].task < nextTask
      && (deliveries[ws].task in timers ==>
            timers[deliveries[ws].task] == Timer(deliveries[ws].request, deliveries[ws].requester))
  }

  function TimesSettled(settled: multiset<Settlement>, task: TaskId): nat {
    settled[Settlement(task, Replied)] + settled[Settlement(task, TimedOut)]
    + settled[Settlement(task, DeliveryFailed)] + settled[Settlement(task, RequesterLeft)]
  }

  /** A registration is either still armed, or has been settled exactly once, by exactly one cause. */
  ghost predicate SettledOnce(settled: multiset<Settlement>, timers: map<TaskId, Timer>, nextTask: TaskId) {
    forall task: TaskId ::
      TimesSettled(settled, task) + (if task in timers then 1 else 0) == (if task < nextTask then 1 else 0)
  }

  ghost predicate Inv(cfg: Config, s: State) {
    && RegistryOk(s.connections, s.socketOwner, s.handlers)
    && ChannelsOk(cfg.maxChannels, s.channels, s.sandboxChannels, s.connections.Keys)
    && TimersMatch(s.pending, s.timers)
    && RequestersConnected(s.pending, s.counts, s.connections.Keys)
    && CountsExact(cfg.maxPending, s.counts, s.pending)
    && DeliveriesOk(s.deliveries, s.timers, s.nextTask)
    && SettledOnce(s.settled, s.timers, s.nextTask)
  }

  // ---- one entry leaves or enters ----------------------------------------------------------------

  lemma CountsAfterRemoval(limit: nat, counts: map<SandboxId, nat>, pending: map<RequestId, Tracked>, rid: RequestId)
    requires CountsExact(limit, counts, pending) && rid in pending
    ensures CountsExact(limit, Decrement(counts, pending[rid].requester), pending - {rid})
  {
    var requester := pending[rid].requester;
    forall id
      ensures Count(Decrement(counts, requester), id) == |RequestsOf(pending - {rid}, id)| <= limit
    {
      var before, after := RequestsOf(pending, id), RequestsOf(pending - {rid}, id);
      assert Count(counts, id) == |before|;
      assert after == if id == requester then before - {rid} else before;
    }
  }

  lemma RequestsOfAdded(pending: map<RequestId, Tracked>, rid: RequestId, t: Tracked, id: SandboxId)
    requires rid !in pending
    ensures RequestsOf(pending[rid := t], id)
         == RequestsOf(pending, id) + (if t.requester == id then {rid} else {})
    ensures rid !in RequestsOf(pending, id)
  {
  }

  lemma CountsAfterRegistration(limit: nat, counts: map<SandboxId, nat>, pending: map<RequestId, Tracked>,
                                rid: RequestId, t: Tracked, n: nat)
    requires CountsExact(limit, counts, pending) && rid !in pending
    requires n == Count(counts, t.requester) + 1 && n <= limit
    ensures CountsExact(limit, counts[t.requester := n], pending[rid := t])
  {
    var counts' := counts[t.requester := n];
    forall id
      ensures Count(counts', id) == |RequestsOf(pending[rid := t], id)| <= limit
    {
      assert Count(counts, id) == |RequestsOf(pending, id)|;
      RequestsOfAdded(pending, rid, t, id);
    }
  }

  lemma SettledAfterRemoval(settled: multiset<Settlement>, timers: map<TaskId, Timer>, nextTask: TaskId,
                            task: TaskId, cause: Cause)
    requires SettledOnce(settled, timers, nextTask) && task in timers
    ensures SettledOnce(settled + multiset{Settlement(task, cause)}, timers - {task}, nextTask)
  {
    forall other: TaskId
      ensures TimesSettled(settled + multiset{Settlement(task, cause)}, other)
           == TimesSettled(settled, other) + (if other == task then 1 else 0)
    {
    }
  }

  /** Taking one entry out of the pending table together with its own timer, whatever the cause. */
  lemma SettleOne(cfg: Config, s: State, rid: RequestId, cause: Cause, t: State)
    requires Inv(cfg, s) && rid in s.pending
    requires t.connections == s.connections && t.socketOwner == s.socketOwner && t.handlers == s.handlers
    requires t.channels == s.channels && t.sandboxChannels == s.sandboxChannels && t.nextTask == s.nextTask
    requires t.pending == s.pending - {rid} && t.timers == s.timers - {s.pending[rid].task}
    requires t.counts == Decrement(s.counts, s.pending[rid].requester)
    requires t.settled == s.settled + multiset{Settlement(s.pending[rid].task, cause)}
    requires forall ws :: ws in t.deliveries ==> ws in s.deliveries && t.deliveries[ws] == s.deliveries[ws]
    ensures Inv(cfg, t)
  {
    CountsAfterRemoval(cfg.maxPending, s.counts, s.pending, rid);
    SettledAfterRemoval(s.settled, s.timers, s.nextTask, s.pending[rid].task, cause);
    assert TimersMatch(t.pending, t.timers);
    assert DeliveriesOk(t.deliveries, t.timers, t.nextTask);
  }

  // ---- when a step keeps it ----------------------------------------------------------------------

  /** What a step needs beyond being possible.  Each clause reads tables before the step:
      a request that gets past the guards must not reuse a pending id and must come from a connected
      sandbox; so must a subscription; a failed delivery must find its own entry, or nothing to undo. */
  ghost predicate Disciplined(cfg: Config, s: State, e: Event)
    requires Enabled(s, e)
  {
    match e
    case RequestFrame(ws, rid, to) =>
      RequestGuard(cfg, s, s.handlers[ws], to).Forwarded? ==> rid !in s.pending && s.handlers[ws] in s.connections
    case SubscribeFrame(ws, ch) => ch != "" ==> s.handlers[ws] in s.connections
    case DeliveryEnds(ws, ok) =>
      !ok ==>
        var d := s.deliveries[ws];
        if d.request in s.pending then s.pending[d.request].task == d.task
        else Count(s.counts, d.requester) == 0 && d.requester in s.connections
    case _ => true
  }

  lemma RegistryAfterAccept(connections: map<SandboxId, Socket>, owner: map<Socket, SandboxId>,
                            handlers: map<Socket, SandboxId>, id: SandboxId, ws: Socket)
    requires RegistryOk(connections, owner, handlers) && ws !in handlers
    ensures RegistryOk(connections, owner, handlers[ws := id])
    ensures id !in connections ==> RegistryOk(connections[id := ws], owner[ws := id], handlers[ws := id])
  {
    assert ws !in owner;
  }

  lemma RegistryAfterClose(connections: map<SandboxId, Socket>, owner: map<Socket, SandboxId>,
                           handlers: map<Socket, SandboxId>, id: SandboxId, ws: Socket)
    requires RegistryOk(connections, owner, handlers) && ws in handlers && handlers[ws] == id
    ensures if id in connections && connections[id] == ws
            then RegistryOk(connections - {id}, owner - {ws}, handlers - {ws})
            else RegistryOk(connections, owner - {ws}, handlers - {ws})
  {
    if id !in connections || connections[id] != ws {
      assert ws !in owner;
      assert owner - {ws} == owner;
    }
  }

  /** A newly connected sandbox has no channels and no requests yet. */
  lemma ConnectingKeepsTables(limit: nat, channels: map<Channel, set<SandboxId>>, mine: map<SandboxId, set<Channel>>,
                              pending: map<RequestId, Tracked>, counts: map<SandboxId, nat>,
                              before: set<SandboxId>, after: set<SandboxId>)
    requires ChannelsOk(limit, channels, mine, before) && RequestersConnected(pending, counts, before)
    requires before <= after
    ensures ChannelsOk(limit, channels, mine, after) && RequestersConnected(pending, counts, after)
  {
  }

  lemma RegisterKeeps(cfg: Config, s: State, id: SandboxId, ws: Socket)
    requires Inv(cfg, s) && ws !in s.handlers
    ensures Inv(cfg, Register(s, id, ws))
  {
    RegistryAfterAccept(s.connections, s.socketOwner, s.handlers, id, ws);
    ConnectingKeepsTables(cfg.maxChannels, s.channels, s.sandboxChannels, s.pending, s.counts,
                          s.connections.Keys, s.connections[id := ws].Keys);
  }

  lemma LeavingKeepsChannels(limit: nat, channels: map<Channel, set<SandboxId>>, mine: map<SandboxId, set<Channel>>,
                             connected: set<SandboxId>, id: SandboxId)
    requires ChannelsOk(limit, channels, mine, connected)
    ensures ChannelsOk(limit, LeaveChannels(channels, if id in mine then mine[id] else {}, id), mine - {id}, connected - {id})
  {
    var listed := if id in mine then mine[id] else {};
    var left := LeaveChannels(channels, listed, id);
    forall ch | ch in channels
      ensures (ch in left <==> channels[ch] - {id} != {}) && (ch in left ==> left[ch] == channels[ch] - {id})
    {
      assert ch in listed <==> id in channels[ch];
      if id !in channels[ch] {
        assert channels[ch] - {id} == channels[ch];
      }
    }
  }

  lemma DepartureSettles(settled: multiset<Settlement>, timers: map<TaskId, Timer>, nextTask: TaskId, tasks: set<TaskId>)
    requires SettledOnce(settled, timers, nextTask) && tasks <= timers.Keys
    ensures SettledOnce(settled + multiset(Departures(tasks)), timers - tasks, nextTask)
  {
    var left := Departures(tasks);
    forall task: TaskId
      ensures TimesSettled(settled + multiset(left), task) == TimesSettled(settled, task) + (if task in tasks then 1 else 0)
    {
      assert Settlement(task, RequesterLeft) in left <==> task in tasks;
      assert Settlement(task, Replied) !in left && Settlement(task, TimedOut) !in left
          && Settlement(task, DeliveryFailed) !in left;
    }
  }

  /** The tasks that go with a departing requester are exactly the timers armed for it. */
  lemma TasksOfRequester(pending: map<RequestId, Tracked>, timers: map<TaskId, Timer>, id: SandboxId)
    requires TimersMatch(pending, timers)
    ensures forall task :: task in TasksOf(pending, RequestsOf(pending, id)) <==>
              task in timers && timers[task].requester == id
  {
    forall task | task in timers && timers[task].requester == id
      ensures task in TasksOf(pending, RequestsOf(pending, id))
    {
      assert timers[task].request in RequestsOf(pending, id);
    }
  }

  lemma CountsAfterDeparture(limit: nat, counts: map<SandboxId, nat>, pending: map<RequestId, Tracked>, id: SandboxId)
    requires CountsExact(limit, counts, pending)
    ensures CountsExact(limit, counts - {id}, pending - RequestsOf(pending, id))
  {
    forall i
      ensures Count(counts - {id}, i) == |RequestsOf(pending - RequestsOf(pending, id), i)| <= limit
    {
      assert Count(counts, i) == |RequestsOf(pending, i)|;
      assert RequestsOf(pending - RequestsOf(pending, id), i) == if i == id then {} else RequestsOf(pending, i);
    }
  }

  lemma DepartureKeepsRequests(pending: map<RequestId, Tracked>, timers: map<TaskId, Timer>, counts: map<SandboxId, nat>,
                               connected: set<SandboxId>, id: SandboxId)
    requires TimersMatch(pending, timers) && RequestersConnected(pending, counts, connected)
    ensures var expired := RequestsOf(pending, id);
      && TimersMatch(pending - expired, timers - TasksOf(pending, expired))
      && RequestersConnected(pending - expired, counts - {id}, connected - {id})
      && TasksOf(pending, expired) <= timers.Keys
  {
    TasksOfRequester(pending, timers, id);
  }

  lemma FewerTimersOk(deliveries: map<Socket, Delivery>, timers: map<TaskId, Timer>, gone: set<TaskId>, nextTask: TaskId)
    requires DeliveriesOk(deliveries, timers, nextTask)
    ensures DeliveriesOk(deliveries, timers - gone, nextTask)
  {
  }

  lemma KeysAfterRemoval(m: map<SandboxId, Socket>, id: SandboxId)
    ensures (m - {id}).Keys == m.Keys - {id}
  {
  }

  lemma UnregisterKeeps(cfg: Config, s: State, id: SandboxId, ws: Socket)
    requires Inv(cfg, s) && ws in s.handlers && s.handlers[ws] == id
    ensures Inv(cfg, Unregister(s, id, ws))
  {
    hide RegistryOk, ChannelsOk, TimersMatch, RequestersConnected, CountsExact, DeliveriesOk, SettledOnce;
    hide LeaveChannels, TasksOf, RequestsOf, Departures;
    RegistryAfterClose(s.connections, s.socketOwner, s.handlers, id, ws);
    if id in s.connections && s.connections[id] == ws {
      FewerTimersOk(s.deliveries, s.timers, TasksOf(s.pending, RequestsOf(s.pending, id)), s.nextTask);
      KeysAfterRemoval(s.connections, id);
      LeavingKeepsChannels(cfg.maxChannels, s.channels, s.sandboxChannels, s.connections.Keys, id);
      DepartureKeepsRequests(s.pending, s.timers, s.counts, s.connections.Keys, id);
      DepartureSettles(s.settled, s.timers, s.nextTask, TasksOf(s.pending, RequestsOf(s.pending, id)));
      CountsAfterDeparture(cfg.maxPending, s.counts, s.pending, id);
    }
  }

  lemma TablesAfterRegistration(s: State, sender: SandboxId, ws: Socket, rid: RequestId)
    requires TimersMatch(s.pending, s.timers) && DeliveriesOk(s.deliveries, s.timers, s.nextTask)
    requires SettledOnce(s.settled, s.timers, s.nextTask) && rid !in s.pending
    ensures var timers := s.timers[s.nextTask := Timer(rid, sender)];
      && TimersMatch(s.pending[rid := Tracked(sender, s.nextTask)], timers)
      && (forall target, open ::
            DeliveriesOk(s.deliveries[ws := Delivery(rid, sender, s.nextTask, target, open)], timers, s.nextTask + 1))
      && SettledOnce(s.settled, timers, s.nextTask + 1)
  {
    assert s.nextTask !in s.timers by {
      assert TimesSettled(s.settled, s.nextTask) + (if s.nextTask in s.timers then 1 else 0) == 0;
    }
  }

  lemma OrphanedTimer(s: State, rid: RequestId, sender: SandboxId)
    requires TimersMatch(s.pending, s.timers) && SettledOnce(s.settled, s.timers, s.nextTask) && rid in s.pending
    ensures !TimersMatch(s.pending[rid := Tracked(sender, s.nextTask)], s.timers[s.nextTask := Timer(rid, sender)])
  {
    var orphan := s.pending[rid].task;
    assert orphan != s.nextTask by {
      assert TimesSettled(s.settled, s.nextTask) + (if s.nextTask in s.timers then 1 else 0) == 0;
    }
    var timers := s.timers[s.nextTask := Timer(rid, sender)];
    assert orphan in timers && timers[orphan].request == rid;
  }

  lemma RequesterRegistered(pending: map<RequestId, Tracked>, counts: map<SandboxId, nat>, connected: set<SandboxId>,
                            rid: RequestId, t: Tracked, n: nat)
    requires RequestersConnected(pending, counts, connected) && t.requester in connected
    ensures RequestersConnected(pending[rid := t], counts[t.requester := n], connected)
  {
  }

  lemma RegistrationKeeps(cfg: Config, s: State, sender: SandboxId, ws: Socket, rid: RequestId, to: SandboxId)
    requires Inv(cfg, s) && RequestGuard(cfg, s, sender, to).Forwarded? && rid !in s.pending && sender in s.connections
    ensures Inv(cfg, BeginRequest(cfg, s, sender, ws, rid, to).0)
  {
    var t, n := Tracked(sender, s.nextTask), Count(s.counts, sender) + 1;
    CountsAfterRegistration(cfg.maxPending, s.counts, s.pending, rid, t, n);
    RequesterRegistered(s.pending, s.counts, s.connections.Keys, rid, t, n);
    TablesAfterRegistration(s, sender, ws, rid);
    hide RegistryOk, ChannelsOk, TimersMatch, RequestersConnected, CountsExact, DeliveriesOk, SettledOnce;
  }

  lemma RegistrationExact(cfg: Config, s: State, sender: SandboxId, ws: Socket, rid: RequestId, to: SandboxId)
    requires Inv(cfg, s) && RequestGuard(cfg, s, sender, to).Forwarded?
    ensures Inv(cfg, BeginRequest(cfg, s, sender, ws, rid, to).0) <==> rid !in s.pending && sender in s.connections
  {
    var t := BeginRequest(cfg, s, sender, ws, rid, to).0;
    if rid in s.pending {
      OrphanedTimer(s, rid, sender);
    } else if sender !in s.connections {
      assert sender in t.counts.Keys;
    } else {
      RegistrationKeeps(cfg, s, sender, ws, rid, to);
    }
  }

  lemma BeginRequestExact(cfg: Config, s: State, e: Event)
    requires Inv(cfg, s) && Enabled(s, e) && e.RequestFrame?
    ensures Inv(cfg, Step(cfg, s, e)) <==> Disciplined(cfg, s, e)
  {
    if RequestGuard(cfg, s, s.handlers[e.ws], e.to).Forwarded? {
      RegistrationExact(cfg, s, s.handlers[e.ws], e.ws, e.rid, e.to);
    }
  }

  /** Somebody else's entry is removed; its timer stays armed. */
  lemma ForeignEntryRemoved(pending: map<RequestId, Tracked>, timers: map<TaskId, Timer>, rid: RequestId, task: TaskId)
    requires TimersMatch(pending, timers) && rid in pending && pending[rid].task != task
    ensures !TimersMatch(pending - {rid}, timers - {task})
  {
    var orphan := pending[rid].task;
    assert orphan in timers - {task} && timers[orphan].request == rid;
  }

  lemma DecrementOfZero(limit: nat, counts: map<SandboxId, nat>, pending: map<RequestId, Tracked>, id: SandboxId)
    requires CountsExact(limit, counts, pending)
    ensures CountsExact(limit, Decrement(counts, id), pending) <==> Count(counts, id) == 0
  {
    assert Count(counts, id) == |RequestsOf(pending, id)|;
    if Count(counts, id) == 0 {
      forall i
        ensures Count(Decrement(counts, id), i) == |RequestsOf(pending, i)| <= limit
      {
        assert Count(counts, i) == |RequestsOf(pending, i)|;
      }
    } else {
      assert Count(Decrement(counts, id), id) != |RequestsOf(pending, id)|;
    }
  }

  /** A delivery fails after its request has already been settled. */
  lemma NothingToUndo(cfg: Config, s: State, d: Delivery, t: State)
    requires Inv(cfg, s) && d.request !in s.pending && d.task !in s.timers
    requires t == s.(counts := Decrement(s.counts, d.requester), deliveries := t.deliveries)
    requires DeliveriesOk(t.deliveries, s.timers, s.nextTask)
    ensures Inv(cfg, t) <==> Count(s.counts, d.requester) == 0 && d.requester in s.connections
  {
    DecrementOfZero(cfg.maxPending, s.counts, s.pending, d.requester);
    assert t.counts.Keys == s.counts.Keys + {d.requester};
  }

  lemma Removing<K, V>(m: map<K, V>, k: K)
    requires k !in m
    ensures m - {k} == m
  {
  }

  lemma AlreadySettled(cfg: Config, s: State, ws: Socket)
    requires Inv(cfg, s) && ws in s.deliveries && s.deliveries[ws].request !in s.pending
    ensures var requester := s.deliveries[ws].requester;
      Inv(cfg, EndRequest(s, ws, false).0) <==> Count(s.counts, requester) == 0 && requester in s.connections
  {
    var d, t := s.deliveries[ws], EndRequest(s, ws, false).0;
    Removing(s.pending, d.request);
    Removing(s.timers, d.task);
    assert t.settled == s.settled;
    NothingToUndo(cfg, s, d, t);
  }

  lemma FailedDeliveryExact(cfg: Config, s: State, ws: Socket)
    requires Inv(cfg, s) && Enabled(s, DeliveryEnds(ws, false))
    ensures Inv(cfg, EndRequest(s, ws, false).0) <==> Disciplined(cfg, s, DeliveryEnds(ws, false))
  {
    var d, t := s.deliveries[ws], EndRequest(s, ws, false).0;
    if d.request !in s.pending {
      AlreadySettled(cfg, s, ws);
    } else if s.pending[d.request].task == d.task {
      SettleOne(cfg, s, d.request, DeliveryFailed, t);
    } else {
      ForeignEntryRemoved(s.pending, s.timers, d.request, d.task);
    }
  }

  lemma EndRequestExact(cfg: Config, s: State, e: Event)
    requires Inv(cfg, s) && Enabled(s, e) && e.DeliveryEnds?
    ensures Inv(cfg, Step(cfg, s, e)) <==> Disciplined(cfg, s, e)
  {
    if !e.ok {
      FailedDeliveryExact(cfg, s, e.ws);
    }
  }

  /** The channels and a sandbox's own list after a subscription. */
  function Joined(channels: map<Channel, set<SandboxId>>, ch: Channel, id: SandboxId): map<Channel, set<SandboxId>> {
    channels[ch := (if ch in channels then channels[ch] else {}) + {id}]
  }

  function Listed(mine: map<SandboxId, set<Channel>>, id: SandboxId, ch: Channel): map<SandboxId, set<Channel>> {
    mine[id := (if id in mine then mine[id] else {}) + {ch}]
  }

  lemma JoiningKeepsLimit(limit: nat, mine: map<SandboxId, set<Channel>>, id: SandboxId, ch: Channel)
    requires Limited(limit, mine) && |if id in mine then mine[id] else {}| < limit
    ensures Limited(limit, Listed(mine, id, ch))
  {
  }

  lemma JoiningKeepsInverse(channels: map<Channel, set<SandboxId>>, mine: map<SandboxId, set<Channel>>,
                            id: SandboxId, ch: Channel)
    requires Inverse(channels, mine)
    ensures Inverse(Joined(channels, ch, id), Listed(mine, id, ch))
  {
  }

  lemma JoiningKeepsChannels(limit: nat, channels: map<Channel, set<SandboxId>>, mine: map<SandboxId, set<Channel>>,
                             connected: set<SandboxId>, id: SandboxId, ch: Channel)
    requires ChannelsOk(limit, channels, mine, connected) && id in connected
    requires |if id in mine then mine[id] else {}| < limit
    ensures ChannelsOk(limit, Joined(channels, ch, id), Listed(mine, id, ch), connected)
  {
    JoiningKeepsInverse(channels, mine, id, ch);
    JoiningKeepsLimit(limit, mine, id, ch);
  }

  lemma EmptyEntryKeepsChannels(limit: nat, channels: map<Channel, set<SandboxId>>, mine: map<SandboxId, set<Channel>>,
                                connected: set<SandboxId>, id: SandboxId)
    requires ChannelsOk(limit, channels, mine, connected) && id in connected
    ensures ChannelsOk(limit, channels, mine[id := if id in mine then mine[id] else {}], connected)
  {
  }

  lemma OnlyConnectedHaveChannels(limit: nat, channels: map<Channel, set<SandboxId>>, mine: map<SandboxId, set<Channel>>,
                                  connected: set<SandboxId>, id: SandboxId)
    requires id in mine && id !in connected
    ensures !ChannelsOk(limit, channels, mine, connected)
  {
    assert id in mine.Keys;
  }

  lemma SubscribedState(cfg: Config, s: State, sender: SandboxId, ch: Channel)
    requires ch != ""
    ensures var own := if sender in s.sandboxChannels then s.sandboxChannels[sender] else {};
      Subscribe(cfg, s, sender, ch).0 ==
        if |own| >= cfg.maxChannels then s.(sandboxChannels := s.sandboxChannels[sender := own])
        else s.(channels := Joined(s.channels, ch, sender), sandboxChannels := Listed(s.sandboxChannels, sender, ch))
  {
  }

  lemma SubscriberListed(mine: map<SandboxId, set<Channel>>, id: SandboxId, ch: Channel)
    ensures id in Listed(mine, id, ch)
  {
  }

  lemma SubscriptionKeeps(cfg: Config, s: State, sender: SandboxId, ch: Channel)
    requires Inv(cfg, s) && ch != "" && sender in s.connections
    ensures Inv(cfg, Subscribe(cfg, s, sender, ch).0)
  {
    hide RegistryOk, ChannelsOk, TimersMatch, RequestersConnected, CountsExact, DeliveriesOk, SettledOnce;
    SubscribedState(cfg, s, sender, ch);
    hide Subscribe, Joined, Listed;
    if |if sender in s.sandboxChannels then s.sandboxChannels[sender] else {}| < cfg.maxChannels {
      JoiningKeepsChannels(cfg.maxChannels, s.channels, s.sandboxChannels, s.connections.Keys, sender, ch);
    } else {
      EmptyEntryKeepsChannels(cfg.maxChannels, s.channels, s.sandboxChannels, s.connections.Keys, sender);
    }
  }

  lemma StrangersBreakChannels(cfg: Config, s: State, sender: SandboxId, ch: Channel)
    requires ch != "" && sender !in s.connections
    ensures !Inv(cfg, Subscribe(cfg, s, sender, ch).0)
  {
    SubscribedState(cfg, s, sender, ch);
    SubscriberListed(s.sandboxChannels, sender, ch);
    hide Subscribe, Joined, Listed, ChannelsOk;
    var t := Subscribe(cfg, s, sender, ch).0;
    OnlyConnectedHaveChannels(cfg.maxChannels, t.channels, t.sandboxChannels, t.connections.Keys, sender);
  }

  lemma SubscriptionExact(cfg: Config, s: State, sender: SandboxId, ch: Channel)
    requires Inv(cfg, s) && ch != ""
    ensures Inv(cfg, Subscribe(cfg, s, sender, ch).0) <==> sender in s.connections
  {
    hide Inv, Subscribe;
    if sender in s.connections {
      SubscriptionKeeps(cfg, s, sender, ch);
    } else {
      StrangersBreakChannels(cfg, s, sender, ch);
    }
  }

  lemma SubscribeExact(cfg: Config, s: State, e: Event)
    requires Inv(cfg, s) && Enabled(s, e) && e.SubscribeFrame?
    ensures Inv(cfg, Step(cfg, s, e)) <==> Disciplined(cfg, s, e)
  {
    if e.ch != "" {
      SubscriptionExact(cfg, s, s.handlers[e.ws], e.ch);
    }
  }

  lemma LeavingKeepsInverse(channels: map<Channel, set<SandboxId>>, mine: map<SandboxId, set<Channel>>,
                            id: SandboxId, ch: Channel)
    requires Inverse(channels, mine)
    ensures Inverse(LeaveChannels(channels, {ch}, id), if id in mine then mine[id := mine[id] - {ch}] else mine)
  {
    var left := LeaveChannels(channels, {ch}, id);
    forall c, i
      ensures c in left && i in left[c] <==> c in channels && i in channels[c] && !(c == ch && i == id)
    {
      if c == ch && ch in channels && i in channels[c] && i != id {
        assert i in channels[ch] - {id};
      }
    }
  }

  lemma LeavingKeepsLimit(limit: nat, mine: map<SandboxId, set<Channel>>, id: SandboxId, ch: Channel)
    requires Limited(limit, mine)
    ensures Limited(limit, if id in mine then mine[id := mine[id] - {ch}] else mine)
  {
    if id in mine && ch in mine[id] {
      assert mine[id] == (mine[id] - {ch}) + {ch};
    } else if id in mine {
      assert mine[id] - {ch} == mine[id];
    }
  }

  lemma LeavingOneKeepsChannels(limit: nat, channels: map<Channel, set<SandboxId>>, mine: map<SandboxId, set<Channel>>,
                                connected: set<SandboxId>, id: SandboxId, ch: Channel)
    requires ChannelsOk(limit, channels, mine, connected)
    ensures ChannelsOk(limit, LeaveChannels(channels, {ch}, id),
                       if id in mine then mine[id := mine[id] - {ch}] else mine, connected)
  {
    LeavingKeepsInverse(channels, mine, id, ch);
    LeavingKeepsLimit(limit, mine, id, ch);
  }

  lemma UnsubscribeKeeps(cfg: Config, s: State, sender: SandboxId, ch: Channel)
    requires Inv(cfg, s)
    ensures Inv(cfg, Unsubscribe(s, sender, ch).0)
  {
    LeavingOneKeepsChannels(cfg.maxChannels, s.channels, s.sandboxChannels, s.connections.Keys, sender, ch);
  }

  /** The main result for one step: it keeps the invariant if and only if it is disciplined. */
  lemma StepExact(cfg: Config, s: State, e: Event)
    requires Inv(cfg, s) && Enabled(s, e)
    ensures Inv(cfg, Step(cfg, s, e)) <==> Disciplined(cfg, s, e)
  {
    match e
    case Accepted(id, ws) => RegisterKeeps(cfg, s, id, ws);
    case SocketCloses(_) =>
    case Closed(ws) => UnregisterKeeps(cfg, s, s.handlers[ws], ws);
    case RequestFrame(_, _, _) => BeginRequestExact(cfg, s, e);
    case DeliveryEnds(_, _) => EndRequestExact(cfg, s, e);
    case ReplyFrame(_, replyTo) =>
      if replyTo != "" && replyTo in s.pending {
        SettleOne(cfg, s, replyTo, Replied, Step(cfg, s, e));
      }
    case SubscribeFrame(_, _) => SubscribeExact(cfg, s, e);
    case UnsubscribeFrame(ws, ch) => UnsubscribeKeeps(cfg, s, s.handlers[ws], ch);
    case TimerFires(task) => SettleOne(cfg, s, s.timers[task].request, TimedOut, Step(cfg, s, e));
  }

  // ---- whole runs --------------------------------------------------------------------------------

  ghost predicate DisciplinedRun(cfg: Config, s: State, es: seq<Event>)
    requires EnabledRun(cfg, s, es)
    decreases |es|
  {
    es == [] || (Disciplined(cfg, s, es[0]) && DisciplinedRun(cfg, Step(cfg, s, es[0]), es[1..]))
  }

  /** The invariant holds after every step of a run. */
  ghost predicate InvThroughout(cfg: Config, s: State, es: seq<Event>)
    requires EnabledRun(cfg, s, es)
    decreases |es|
  {
    Inv(cfg, s) && (es != [] ==> InvThroughout(cfg, Step(cfg, s, es[0]), es[1..]))
  }

  lemma InitialInv(cfg: Config)
    ensures Inv(cfg, EMPTY_STATE)
  {
    forall id
      ensures |RequestsOf(EMPTY_STATE.pending, id)| == 0
    {
      assert RequestsOf(EMPTY_STATE.pending, id) == {};
    }
  }

  /** Over any run the invariant holds throughout if and only if every step was disciplined. */
  lemma {:induction false} RunExactFrom(cfg: Config, s: State, es: seq<Event>)
    requires Inv(cfg, s) && EnabledRun(cfg, s, es)
    ensures InvThroughout(cfg, s, es) <==> DisciplinedRun(cfg, s, es)
    ensures DisciplinedRun(cfg, s, es) ==> Inv(cfg, Run(cfg, s, es))
    decreases |es|
  {
    if es != [] {
      StepExact(cfg, s, es[0]);
      if Disciplined(cfg, s, es[0]) {
        RunExactFrom(cfg, Step(cfg, s, es[0]), es[1..]);
      }
    }
  }

  lemma RunExact(cfg: Config, es: seq<Event>)
    requires EnabledRun(cfg, EMPTY_STATE, es)
    ensures InvThroughout(cfg, EMPTY_STATE, es) <==> DisciplinedRun(cfg, EMPTY_STATE, es)
    ensures DisciplinedRun(cfg, EMPTY_STATE, es) ==> Inv(cfg, Run(cfg, EMPTY_STATE, es))
  {
    InitialInv(cfg);
    RunExactFrom(cfg, EMPTY_STATE, es);
  }

  lemma {:induction false} TimersOneToOne(pending: map<RequestId, Tracked>, timers: map<TaskId, Timer>, rids: set<RequestId>)
    requires TimersMatch(pending, timers) && rids <= pending.Keys
    ensures |TasksOf(pending, rids)| == |rids|
    decreases |rids|
  {
    if rids == {} {
      assert TasksOf(pending, rids) == {};
    } else {
      var rid :| rid in rids;
      var rest := rids - {rid};
      TimersOneToOne(pending, timers, rest);
      var task := pending[rid].task;
      forall other | other in rest
        ensures pending[other].task != task
      {
        assert timers[pending[other].task].request == other;
      }
      assert TasksOf(pending, rids) == TasksOf(pending, rest) + {task};
    }
  }

  /** In flight, per sandbox: the count is the number of entries, which is the number of armed timers,
      and none of them exceeds the limit. */
  lemma InFlightBounded(cfg: Config, es: seq<Event>, id: SandboxId)
    requires EnabledRun(cfg, EMPTY_STATE, es) && DisciplinedRun(cfg, EMPTY_STATE, es)
    ensures var s := Run(cfg, EMPTY_STATE, es);
      && Count(s.counts, id) == |RequestsOf(s.pending, id)| == |(set task | task in s.timers && s.timers[task].requester == id)|
      && Count(s.counts, id) <= cfg.maxPending
  {
    RunExact(cfg, es);
    var s := Run(cfg, EMPTY_STATE, es);
    TimersOneToOne(s.pending, s.timers, RequestsOf(s.pending, id));
    TasksOfRequester(s.pending, s.timers, id);
    assert TasksOf(s.pending, RequestsOf(s.pending, id)) == set task | task in s.timers && s.timers[task].requester == id;
  }

  /** Every registration ever made is still in flight or was settled exactly once, by one cause. */
  lemma EachRequestSettledOnce(cfg: Config, es: seq<Event>, task: TaskId)
    requires EnabledRun(cfg, EMPTY_STATE, es) && DisciplinedRun(cfg, EMPTY_STATE, es)
    ensures var s := Run(cfg, EMPTY_STATE, es);
      && TimesSettled(s.settled, task) <= 1
      && (task < s.nextTask ==>
            (TimesSettled(s.settled, task) == 0 <==> exists rid :: rid in s.pending && s.pending[rid].task == task))
      && (task >= s.nextTask ==> TimesSettled(s.settled, task) == 0)
  {
    RunExact(cfg, es);
    var s := Run(cfg, EMPTY_STATE, es);
    if task in s.timers {
      assert s.timers[task].request in s.pending;
    }
  }

  /** A reply that matches a pending request always finds its requester connected: the branch for a
      requester that has gone is never taken. */
  lemma ReplyReachesRequester(cfg: Config, s: State, replyTo: RequestId)
    requires Inv(cfg, s)
    ensures Reply(s, replyTo).1 ==
      if replyTo != "" && replyTo in s.pending then Forwarded(s.pending[replyTo].requester) else InvalidFrame
  {
  }

  /** `id` appears in no table and no armed timer. */
  ghost predicate NoTrace(s: State, id: SandboxId) {
    && id !in s.connections && id !in s.socketOwner.Values
    && id !in s.sandboxChannels && (forall ch :: ch in s.channels ==> id !in s.channels[ch])
    && id !in s.counts && (forall rid :: rid in s.pending ==> s.pending[rid].requester != id)
    && (forall task :: task in s.timers ==> s.timers[task].requester != id)
  }

  /** In a state with the invariant, a sandbox that is not connected has no trace anywhere. */
  lemma DisconnectedHasNoTrace(cfg: Config, s: State, id: SandboxId)
    requires Inv(cfg, s) && id !in s.connections
    ensures NoTrace(s, id)
  {
  }

  /** Closing the registered socket of a sandbox removes every trace of it. */
  lemma UnregisterLeavesNoTrace(cfg: Config, s: State, id: SandboxId)
    requires Inv(cfg, s) && id in s.connections && Enabled(s, Closed(s.connections[id]))
    ensures NoTrace(Step(cfg, s, Closed(s.connections[id])), id)
  {
    UnregisterKeeps(cfg, s, id, s.connections[id]);
    DisconnectedHasNoTrace(cfg, Unregister(s, id, s.connections[id]), id);
  }

  /** ... and leaves every other sandbox its connection, requests, count and subscriptions. */
  lemma UnregisterSparesOthers(cfg: Config, s: State, id: SandboxId, other: SandboxId, ch: Channel)
    requires Inv(cfg, s) && id in s.connections && Enabled(s, Closed(s.connections[id])) && other != id
    ensures var t := Step(cfg, s, Closed(s.connections[id]));
      && RequestsOf(t.pending, other) == RequestsOf(s.pending, other)
      && Count(t.counts, other) == Count(s.counts, other)
      && (other in t.connections <==> other in s.connections)
      && ((ch in t.channels && other in t.channels[ch]) <==> (ch in s.channels && other in s.channels[ch]))
  {
  }

  lemma LeavingUndoesJoining(channels: map<Channel, set<SandboxId>>, id: SandboxId, ch: Channel)
    requires ch in channels ==> channels[ch] != {} && id !in channels[ch]
    ensures LeaveChannels(channels[ch := (if ch in channels then channels[ch] else {}) + {id}], {ch}, id) == channels
  {
    var joined := channels[ch := (if ch in channels then channels[ch] else {}) + {id}];
    if ch in channels {
      assert joined[ch] - {id} == channels[ch];
    } else {
      assert joined[ch] - {id} == {};
    }
  }

  /** Unsubscribing undoes a subscription that was not there before. */
  lemma UnsubscribeUndoesSubscribe(cfg: Config, s: State, sender: SandboxId, ch: Channel)
    requires Inv(cfg, s) && sender in s.sandboxChannels && ch !in s.sandboxChannels[sender]
    requires Subscribe(cfg, s, sender, ch).1 == Ack
    ensures Unsubscribe(Subscribe(cfg, s, sender, ch).0, sender, ch).0 == s
  {
    if ch in s.channels {
      assert sender !in s.channels[ch];
    }
    LeavingUndoesJoining(s.channels, sender, ch);
    var mine := s.sandboxChannels;
    assert (mine[sender] + {ch}) - {ch} == mine[sender];
    assert mine[sender := mine[sender] + {ch}][sender := mine[sender]] == mine;
  }
}
