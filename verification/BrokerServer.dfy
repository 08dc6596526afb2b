/** The broker object: its tables are fields, and each method is one atomic step of a handler. */
module BrokerServer {
  import opened BrokerModel

  lemma LeaveOne(channels: map<Channel, set<SandboxId>>, ch: Channel, id: SandboxId)
    ensures LeaveChannels(channels, {ch}, id) ==
      if ch !in channels || channels[ch] == {} then channels
      else if channels[ch] - {id} == {} then channels - {ch}
      else channels[ch := channels[ch] - {id}]
  {
    if ch in channels && channels[ch] == {} {
      assert channels[ch] - {id} == channels[ch];
    }
  }

  /** Leaving one channel more than a given set of channels. */
  lemma LeaveOneMore(channels: map<Channel, set<SandboxId>>, left: set<Channel>, ch: Channel, id: SandboxId)
    requires ch !in left
    ensures LeaveChannels(channels, left + {ch}, id) == LeaveChannels(LeaveChannels(channels, left, id), {ch}, id)
  {
  }

  class NMBBroker {
    const config: Config

    var connections: map<SandboxId, Socket>
    var socketOwner: map<Socket, SandboxId>
    var channels: map<Channel, set<SandboxId>>
    var sandboxChannels: map<SandboxId, set<Channel>>
    var pending: map<RequestId, Tracked>
    var counts: map<SandboxId, nat>

    // The event loop's side of the same state.
    var handlers: map<Socket, SandboxId>
    var closed: set<Socket>
    var timers: map<TaskId, Timer>
    var deliveries: map<Socket, Delivery>
    var nextTask: TaskId
    ghost var settled: multiset<Settlement>

    ghost function View(): State
      reads this
    {
      State(connections, socketOwner, channels, sandboxChannels, pending, counts, handlers, closed, timers,
            deliveries, nextTask, settled)
    }

    constructor (config: Config)
      ensures this.config == config && View() == EMPTY_STATE
    {
      this.config := config;
      connections, socketOwner, channels, sandboxChannels := map[], map[], map[], map[];
      pending, counts, handlers, timers, deliveries, nextTask := map[], map[], map[], map[], map[], 0;
      closed := {};
      settled := multiset{};
    }

    method Register(id: SandboxId, ws: Socket)
      modifies this`handlers, this`connections, this`socketOwner
      ensures View() == BrokerModel.Register(old(View()), id, ws)
    {
      handlers := handlers[ws := id];
      if id in connections {
        return;
      }
      connections := connections[id := ws];
      socketOwner := socketOwner[ws := id];
    }

    /** Discard `id` from the subscribers of `ch`, and the channel with its last subscriber. */
    method Leave(ch: Channel, id: SandboxId)
      modifies this`channels
      ensures channels == LeaveChannels(old(channels), {ch}, id)
    {
      if ch in channels && channels[ch] != {} {
        var subs := channels[ch] - {id};
        channels := if subs == {} then channels - {ch} else channels[ch := subs];
      }
      LeaveOne(old(channels), ch, id);
    }

    /** The loop over the channels of a departing sandbox, in whatever order the set yields them. */
    method LeaveAll(id: SandboxId)
      modifies this`channels
      ensures channels == LeaveChannels(old(channels), if id in sandboxChannels then sandboxChannels[id] else {}, id)
    {
      var listed := if id in sandboxChannels then sandboxChannels[id] else {};
      var rest := listed;
      while rest != {}
        invariant rest <= listed
        invariant channels == LeaveChannels(old(channels), listed - rest, id)
      {
        var ch :| ch in rest;
        LeaveOneMore(old(channels), listed - rest, ch, id);
        assert listed - (rest - {ch}) == (listed - rest) + {ch};
        Leave(ch, id);
        rest := rest - {ch};
      }
      assert listed - rest == listed;
    }

    /** The loop over the requests of a departing sandbox: each one goes with its timer. */
    method DropRequests(id: SandboxId)
      modifies this`pending, this`timers, this`settled
      ensures var expired := RequestsOf(old(pending), id);
        && pending == old(pending) - expired
        && timers == old(timers) - TasksOf(old(pending), expired)
        && settled == old(settled) + multiset(Departures(TasksOf(old(pending), expired)))
    {
      var expired := RequestsOf(pending, id);
      var rest := expired;
      settled := settled + multiset(Departures(TasksOf(pending, expired)));
      while rest != {}
        invariant rest <= expired
        invariant pending == old(pending) - (expired - rest)
        invariant timers == old(timers) - TasksOf(old(pending), expired - rest)
        invariant settled == old(settled) + multiset(Departures(TasksOf(old(pending), expired)))
      {
        var rid :| rid in rest;
        assert rid in pending && pending[rid] == old(pending)[rid];
        assert expired - (rest - {rid}) == (expired - rest) + {rid};
        assert TasksOf(old(pending), (expired - rest) + {rid})
            == TasksOf(old(pending), expired - rest) + {pending[rid].task};
        timers := timers - {pending[rid].task};
        pending := pending - {rid};
        rest := rest - {rid};
      }
      assert expired - rest == expired;
    }

    /** Everything the registered socket of `id` leaves behind. */
    method CleanUp(id: SandboxId)
      modifies this`connections, this`channels, this`sandboxChannels, this`pending, this`timers, this`counts, this`settled
      ensures connections == old(connections) - {id} && sandboxChannels == old(sandboxChannels) - {id}
      ensures channels == LeaveChannels(old(channels), if id in old(sandboxChannels) then old(sandboxChannels)[id] else {}, id)
      ensures var expired := RequestsOf(old(pending), id);
        && pending == old(pending) - expired && counts == old(counts) - {id}
        && timers == old(timers) - TasksOf(old(pending), expired)
        && settled == old(settled) + multiset(Departures(TasksOf(old(pending), expired)))
    {
      connections := connections - {id};
      LeaveAll(id);
      sandboxChannels := sandboxChannels - {id};
      DropRequests(id);
      counts := counts - {id};
    }

    method Unregister(id: SandboxId, ws: Socket)
      modifies this
      ensures View() == BrokerModel.Unregister(old(View()), id, ws)
    {
      hide LeaveChannels, RequestsOf, TasksOf, Departures;
      handlers := handlers - {ws};
      closed := closed + {ws};
      socketOwner := socketOwner - {ws};
      if id in connections && connections[id] == ws {
        CleanUp(id);
      }
    }

    method DecrementCount(id: SandboxId)
      modifies this`counts
      ensures counts == Decrement(old(counts), id)
    {
      var n: int := if id in counts then counts[id] else 1;
      counts := counts[id := if n - 1 > 0 then n - 1 else 0];
    }

    method HandleRequest(sender: SandboxId, ws: Socket, rid: RequestId, to: SandboxId) returns (response: Response)
      modifies this`pending, this`timers, this`counts, this`deliveries, this`nextTask
      ensures (View(), response) == BeginRequest(config, old(View()), sender, ws, rid, to)
    {
      if to == "" {
        return InvalidFrame;
      }
      var count := if sender in counts then counts[sender] else 0;
      if count >= config.maxPending {
        return RateLimited;
      }
      if to !in connections {
        return TargetOffline;
      }
      var task := nextTask;
      nextTask := nextTask + 1;
      timers := timers[task := Timer(rid, sender)];
      pending := pending[rid := Tracked(sender, task)];
      counts := counts[sender := count + 1];
      var target := connections[to];
      deliveries := deliveries[ws := Delivery(rid, sender, task, target, target !in closed)];
      return Forwarded(to);
    }

    method RollBack(d: Delivery)
      modifies this`pending, this`timers, this`counts, this`settled
      ensures pending == old(pending) - {d.request} && timers == old(timers) - {d.task}
      ensures counts == Decrement(old(counts), d.requester)
      ensures settled == old(settled) + (if d.request in old(pending)
                                         then multiset{Settlement(old(pending)[d.request].task, DeliveryFailed)}
                                         else multiset{})
    {
      if d.request in pending {
        settled := settled + multiset{Settlement(pending[d.request].task, DeliveryFailed)};
      }
      pending := pending - {d.request};
      timers := timers - {d.task};
      DecrementCount(d.requester);
    }

    /** The `send` of a request handler returns, or raises because the target's socket is closed. */
    method ResumeRequest(ws: Socket, ok: bool) returns (response: Response)
      requires ws in deliveries
      modifies this`pending, this`timers, this`counts, this`deliveries, this`settled
      ensures (View(), response) == EndRequest(old(View()), ws, ok)
      ensures (response == Ack <==> ok) && (response == TargetOffline <==> !ok)
    {
      var d := deliveries[ws];
      deliveries := deliveries - {ws};
      if ok {
        return Ack;
      }
      RollBack(d);
      return TargetOffline;
    }

    method HandleReply(replyTo: RequestId) returns (response: Response)
      modifies this`pending, this`settled, this`timers, this`counts
      ensures (View(), response) == Reply(old(View()), replyTo)
    {
      hide Decrement;
      if replyTo == "" || replyTo !in pending {
        return InvalidFrame;
      }
      var tracked := pending[replyTo];
      pending := pending - {replyTo};
      settled := settled + multiset{Settlement(tracked.task, Replied)};
      timers := timers - {tracked.task};
      DecrementCount(tracked.requester);
      if tracked.requester !in connections {
        return RequesterGone;
      }
      return Forwarded(tracked.requester);
    }

    method TimeoutRequest(task: TaskId) returns (response: Response)
      requires task in timers
      modifies this`pending, this`settled, this`timers, this`counts
      ensures (View(), response) == Expire(old(View()), task)
    {
      hide Decrement;
      var timer := timers[task];
      timers := timers - {task};
      if timer.request !in pending {
        return Silent;
      }
      settled := settled + multiset{Settlement(pending[timer.request].task, TimedOut)};
      pending := pending - {timer.request};
      DecrementCount(timer.requester);
      return if timer.requester in connections then Forwarded(timer.requester) else Silent;
    }

    /** `setdefault` on the sandbox's own channels, and whether they have reached the limit. */
    method OpenEntry(sender: SandboxId) returns (full: bool)
      modifies this`sandboxChannels
      ensures sender in sandboxChannels
      ensures sandboxChannels ==
        old(sandboxChannels)[sender := if sender in old(sandboxChannels) then old(sandboxChannels)[sender] else {}]
      ensures full <==> |sandboxChannels[sender]| >= config.maxChannels
    {
      if sender !in sandboxChannels {
        sandboxChannels := sandboxChannels[sender := {}];
      }
      full := |sandboxChannels[sender]| >= config.maxChannels;
    }

    /** Both sides of the subscription. */
    method Join(sender: SandboxId, ch: Channel)
      requires sender in sandboxChannels
      modifies this`channels, this`sandboxChannels
      ensures channels == old(channels)[ch := (if ch in old(channels) then old(channels)[ch] else {}) + {sender}]
      ensures sandboxChannels == old(sandboxChannels)[sender := old(sandboxChannels)[sender] + {ch}]
    {
      if ch !in channels {
        channels := channels[ch := {}];
      }
      channels := channels[ch := channels[ch] + {sender}];
      sandboxChannels := sandboxChannels[sender := sandboxChannels[sender] + {ch}];
    }

    method HandleSubscribe(sender: SandboxId, ch: Channel) returns (response: Response)
      modifies this`channels, this`sandboxChannels
      ensures (View(), response) == Subscribe(config, old(View()), sender, ch)
    {
      if ch == "" {
        return InvalidFrame;
      }
      ghost var mine := if sender in sandboxChannels then sandboxChannels[sender] else {};
      var full := OpenEntry(sender);
      if full {
        return ChannelFull;
      }
      Join(sender, ch);
      assert sandboxChannels == old(sandboxChannels)[sender := mine + {ch}];
      return Ack;
    }

    method HandleUnsubscribe(sender: SandboxId, ch: Channel) returns (response: Response)
      modifies this`channels, this`sandboxChannels
      ensures (View(), response) == Unsubscribe(old(View()), sender, ch)
    {
      if ch == "" {
        return InvalidFrame;
      }
      Leave(ch, sender);
      if sender in sandboxChannels {
        sandboxChannels := sandboxChannels[sender := sandboxChannels[sender] - {ch}];
      }
      return Ack;
    }
  }
}
