/** Runs of the broker on which it does not keep its promises; none of them is disciplined. */
module BrokerRuns {
  import opened BrokerModel
  import opened BrokerProofs

  ghost predicate Reaches(cfg: Config, s: State, es: seq<Event>, t: State) {
    EnabledRun(cfg, s, es) && Run(cfg, s, es) == t
  }

  lemma ReachesOne(cfg: Config, s: State, e: Event, t: State)
    requires Enabled(s, e) && Step(cfg, s, e) == t
    ensures Reaches(cfg, s, [e], t) && (DisciplinedRun(cfg, s, [e]) <==> Disciplined(cfg, s, e))
  {
    assert [e][1..] == [];
  }

  lemma {:induction false} ReachesBoth(cfg: Config, s: State, a: seq<Event>, t: State, b: seq<Event>, u: State)
    requires Reaches(cfg, s, a, t) && Reaches(cfg, t, b, u)
    ensures Reaches(cfg, s, a + b, u)
    ensures DisciplinedRun(cfg, s, a + b) <==> DisciplinedRun(cfg, s, a) && DisciplinedRun(cfg, t, b)
    decreases |a|
  {
    if a == [] {
      assert a + b == b;
    } else {
      assert (a + b)[0] == a[0] && (a + b)[1..] == a[1..] + b;
      ReachesBoth(cfg, Step(cfg, s, a[0]), a[1..], t, b, u);
    }
  }

  lemma ReachesNext(cfg: Config, s: State, es: seq<Event>, t: State, e: Event, u: State)
    requires Reaches(cfg, s, es, t) && Enabled(t, e) && Step(cfg, t, e) == u
    ensures Reaches(cfg, s, es + [e], u)
    ensures DisciplinedRun(cfg, s, es + [e]) <==> DisciplinedRun(cfg, s, es) && Disciplined(cfg, t, e)
  {
    ReachesOne(cfg, t, e, u);
    ReachesBoth(cfg, s, es, t, [e], u);
  }

  // ---- a failed delivery after a timeout ---------------------------------------------------------

  const TWO := Config(2, 0)

  /** Three sandboxes, of which "a" sends requests. */
  function Three(pending: map<RequestId, Tracked>, counts: map<SandboxId, nat>, closed: set<Socket>,
                 timers: map<TaskId, Timer>, deliveries: map<Socket, Delivery>, nextTask: TaskId,
                 settled: multiset<Settlement>): State
  {
    State(map["a" := 0, "b" := 1, "c" := 2], map[0 := "a", 1 := "b", 2 := "c"], map[], map[], pending, counts,
          map[0 := "a", 1 := "b", 2 := "c"], closed, timers, deliveries, nextTask, settled)
  }

  const CONNECTED := Three(map[], map[], {}, map[], map[], 0, multiset{})

  const ONE_SENT := Three(map["r0" := Tracked("a", 0)], map["a" := 1], {}, map[0 := Timer("r0", "a")],
                          map[0 := Delivery("r0", "a", 0, 1, true)], 1, multiset{})

  const ONE_WAITING := ONE_SENT.(deliveries := map[])

  const TWO_SENT := Three(map["r0" := Tracked("a", 0), "r1" := Tracked("a", 1)], map["a" := 2], {},
                          map[0 := Timer("r0", "a"), 1 := Timer("r1", "a")],
                          map[0 := Delivery("r1", "a", 1, 2, true)], 2, multiset{})

  const TIMED_OUT := Three(map["r0" := Tracked("a", 0)], map["a" := 1], {}, map[0 := Timer("r0", "a")],
                           map[0 := Delivery("r1", "a", 1, 2, true)], 2, multiset{Settlement(1, TimedOut)})

  const FAILED := Three(map["r0" := Tracked("a", 0)], map["a" := 0], {2}, map[0 := Timer("r0", "a")], map[], 2,
                        multiset{Settlement(1, TimedOut)})

  const CONNECTING: seq<Event> := [Accepted("a", 0)] + [Accepted("b", 1)] + [Accepted("c", 2)]

  const LATE_FAILURE: seq<Event> :=
    CONNECTING
    + [RequestFrame(0, "r0", "b")] + [DeliveryEnds(0, true)] + [RequestFrame(0, "r1", "c")]
    + [TimerFires(1)] + [SocketCloses(2)] + [DeliveryEnds(0, false)]
    + [RequestFrame(0, "r2", "b")] + [DeliveryEnds(0, true)] + [RequestFrame(0, "r3", "b")]

  lemma Connecting(cfg: Config)
    ensures Reaches(cfg, EMPTY_STATE, CONNECTING, CONNECTED)
  {
    var s1 := Register(EMPTY_STATE, "a", 0);
    var s2 := Register(s1, "b", 1);
    ReachesOne(cfg, EMPTY_STATE, Accepted("a", 0), s1);
    ReachesNext(cfg, EMPTY_STATE, [Accepted("a", 0)], s1, Accepted("b", 1), s2);
    ReachesNext(cfg, EMPTY_STATE, [Accepted("a", 0)] + [Accepted("b", 1)], s2, Accepted("c", 2), CONNECTED);
  }

  lemma FirstRequests()
    ensures Step(TWO, CONNECTED, RequestFrame(0, "r0", "b")) == ONE_SENT
    ensures Step(TWO, ONE_SENT, DeliveryEnds(0, true)) == ONE_WAITING
    ensures Step(TWO, ONE_WAITING, RequestFrame(0, "r1", "c")) == TWO_SENT
  {
    assert Step(TWO, ONE_SENT, DeliveryEnds(0, true)).deliveries == map[];
  }

  /** The second request times out, its target's socket closes, and only then does its delivery fail. */
  lemma TimingOut()
    ensures Step(TWO, TWO_SENT, TimerFires(1)) == TIMED_OUT
    ensures Step(TWO, TIMED_OUT, SocketCloses(2)) == TIMED_OUT.(closed := {2})
  {
    var s := Step(TWO, TWO_SENT, TimerFires(1));
    assert s.pending == TIMED_OUT.pending && s.timers == TIMED_OUT.timers && s.counts == TIMED_OUT.counts;
  }

  lemma FailingLate()
    ensures Step(TWO, TIMED_OUT.(closed := {2}), DeliveryEnds(0, false)) == FAILED
    ensures !Disciplined(TWO, TIMED_OUT.(closed := {2}), DeliveryEnds(0, false))
  {
    var t := Step(TWO, TIMED_OUT.(closed := {2}), DeliveryEnds(0, false));
    assert t.pending == FAILED.pending && t.timers == FAILED.timers && t.counts == FAILED.counts;
    assert t.deliveries == map[];
  }

  /** The sandbox has one request in flight and a count of zero. */
  lemma TwoMore() returns (last: State)
    ensures Reaches(TWO, FAILED, [RequestFrame(0, "r2", "b")] + [DeliveryEnds(0, true)] + [RequestFrame(0, "r3", "b")], last)
    ensures RequestsOf(last.pending, "a") == {"r0", "r2", "r3"} && Count(last.counts, "a") == 2
  {
    var s1 := Step(TWO, FAILED, RequestFrame(0, "r2", "b"));
    var s2 := Step(TWO, s1, DeliveryEnds(0, true));
    last := Step(TWO, s2, RequestFrame(0, "r3", "b"));
    ReachesOne(TWO, FAILED, RequestFrame(0, "r2", "b"), s1);
    ReachesNext(TWO, FAILED, [RequestFrame(0, "r2", "b")], s1, DeliveryEnds(0, true), s2);
    ReachesNext(TWO, FAILED, [RequestFrame(0, "r2", "b")] + [DeliveryEnds(0, true)], s2, RequestFrame(0, "r3", "b"), last);
    assert RequestsOf(last.pending, "a") == {"r0", "r2", "r3"};
  }

  lemma ToFailure()
    ensures var es := CONNECTING
      + [RequestFrame(0, "r0", "b")] + [DeliveryEnds(0, true)] + [RequestFrame(0, "r1", "c")]
      + [TimerFires(1)] + [SocketCloses(2)] + [DeliveryEnds(0, false)];
      Reaches(TWO, EMPTY_STATE, es, FAILED) && !DisciplinedRun(TWO, EMPTY_STATE, es)
  {
    Connecting(TWO);
    FirstRequests();
    TimingOut();
    FailingLate();
    var es := CONNECTING;
    ReachesNext(TWO, EMPTY_STATE, es, CONNECTED, RequestFrame(0, "r0", "b"), ONE_SENT);
    es := es + [RequestFrame(0, "r0", "b")];
    ReachesNext(TWO, EMPTY_STATE, es, ONE_SENT, DeliveryEnds(0, true), ONE_WAITING);
    es := es + [DeliveryEnds(0, true)];
    ReachesNext(TWO, EMPTY_STATE, es, ONE_WAITING, RequestFrame(0, "r1", "c"), TWO_SENT);
    es := es + [RequestFrame(0, "r1", "c")];
    ReachesNext(TWO, EMPTY_STATE, es, TWO_SENT, TimerFires(1), TIMED_OUT);
    es := es + [TimerFires(1)];
    ReachesNext(TWO, EMPTY_STATE, es, TIMED_OUT, SocketCloses(2), TIMED_OUT.(closed := {2}));
    es := es + [SocketCloses(2)];
    ReachesNext(TWO, EMPTY_STATE, es, TIMED_OUT.(closed := {2}), DeliveryEnds(0, false), FAILED);
  }

  /** With a limit of two, three requests of one sandbox end up in flight: a delivery that fails after its request has
      timed out decrements the count a second time. */
  lemma LateFailureBreaksLimit()
    ensures EnabledRun(TWO, EMPTY_STATE, LATE_FAILURE) && !DisciplinedRun(TWO, EMPTY_STATE, LATE_FAILURE)
    ensures |RequestsOf(Run(TWO, EMPTY_STATE, LATE_FAILURE).pending, "a")| == 3
  {
    ToFailure();
    var last := TwoMore();
    var es := CONNECTING
      + [RequestFrame(0, "r0", "b")] + [DeliveryEnds(0, true)] + [RequestFrame(0, "r1", "c")]
      + [TimerFires(1)] + [SocketCloses(2)] + [DeliveryEnds(0, false)];
    var more := [RequestFrame(0, "r2", "b")] + [DeliveryEnds(0, true)] + [RequestFrame(0, "r3", "b")];
    ReachesBoth(TWO, EMPTY_STATE, es, FAILED, more, last);
    assert es + more == LATE_FAILURE;
  }

  // ---- a request id that is still pending --------------------------------------------------------

  const REUSED := Three(map["r0" := Tracked("a", 1)], map["a" := 2], {}, map[0 := Timer("r0", "a"), 1 := Timer("r0", "a")],
                        map[0 := Delivery("r0", "a", 1, 1, true)], 2, multiset{})

  const ORPHANED := Three(map[], map["a" := 1], {}, map[0 := Timer("r0", "a")], map[], 2, multiset{Settlement(1, Replied)})

  const REUSED_ID: seq<Event> :=
    CONNECTING
    + [RequestFrame(0, "r0", "b")] + [DeliveryEnds(0, true)] + [RequestFrame(0, "r0", "b")] + [DeliveryEnds(0, true)]
    + [ReplyFrame(1, "r0")] + [TimerFires(0)]

  lemma ReusedSteps()
    ensures Step(TWO, ONE_WAITING, RequestFrame(0, "r0", "b")) == REUSED
    ensures !Disciplined(TWO, ONE_WAITING, RequestFrame(0, "r0", "b"))
    ensures Step(TWO, REUSED, DeliveryEnds(0, true)) == REUSED.(deliveries := map[])
  {
    var s := Step(TWO, ONE_WAITING, RequestFrame(0, "r0", "b"));
    assert s.pending == REUSED.pending && s.timers == REUSED.timers;
    assert Step(TWO, REUSED, DeliveryEnds(0, true)).deliveries == map[];
  }

  lemma OrphanSteps()
    ensures Step(TWO, REUSED.(deliveries := map[]), ReplyFrame(1, "r0")) == ORPHANED
    ensures Step(TWO, ORPHANED, TimerFires(0)) == ORPHANED.(timers := map[])
  {
    var s := Step(TWO, REUSED.(deliveries := map[]), ReplyFrame(1, "r0"));
    assert s.pending == map[] && s.timers == ORPHANED.timers && s.counts == ORPHANED.counts;
    assert Step(TWO, ORPHANED, TimerFires(0)).timers == map[];
  }

  /** A request whose id is still pending costs its sandbox one slot, for as long as it stays connected: nothing is in
      flight any more and no timer is armed, but the count stays at one. */
  lemma ReusedIdLosesSlot()
    ensures EnabledRun(TWO, EMPTY_STATE, REUSED_ID) && !DisciplinedRun(TWO, EMPTY_STATE, REUSED_ID)
    ensures var s := Run(TWO, EMPTY_STATE, REUSED_ID); s.pending == map[] && s.timers == map[] && Count(s.counts, "a") == 1
  {
    Connecting(TWO);
    FirstRequests();
    ReusedSteps();
    OrphanSteps();
    var es := CONNECTING;
    ReachesNext(TWO, EMPTY_STATE, es, CONNECTED, RequestFrame(0, "r0", "b"), ONE_SENT);
    es := es + [RequestFrame(0, "r0", "b")];
    ReachesNext(TWO, EMPTY_STATE, es, ONE_SENT, DeliveryEnds(0, true), ONE_WAITING);
    es := es + [DeliveryEnds(0, true)];
    ReachesNext(TWO, EMPTY_STATE, es, ONE_WAITING, RequestFrame(0, "r0", "b"), REUSED);
    es := es + [RequestFrame(0, "r0", "b")];
    ReachesNext(TWO, EMPTY_STATE, es, REUSED, DeliveryEnds(0, true), REUSED.(deliveries := map[]));
    es := es + [DeliveryEnds(0, true)];
    ReachesNext(TWO, EMPTY_STATE, es, REUSED.(deliveries := map[]), ReplyFrame(1, "r0"), ORPHANED);
    es := es + [ReplyFrame(1, "r0")];
    ReachesNext(TWO, EMPTY_STATE, es, ORPHANED, TimerFires(0), ORPHANED.(timers := map[]));
  }

  // ---- frames from a rejected socket -------------------------------------------------------------

  /** Only "b" is registered; the socket of a second "a" was rejected, and then the first "a" left. */
  const REJECTED := State(map["b" := 1], map[1 := "b"], map[], map[], map[], map[], map[1 := "b", 2 := "a"], {0},
                          map[], map[], 0, multiset{})

  const STRANDED := REJECTED.(pending := map["r0" := Tracked("a", 0)], counts := map["a" := 1],
                              timers := map[0 := Timer("r0", "a")], nextTask := 1)

  const FROM_REJECTED: seq<Event> :=
    [Accepted("a", 0)] + [Accepted("b", 1)] + [Accepted("a", 2)] + [Closed(0)]
    + [RequestFrame(2, "r0", "b")] + [DeliveryEnds(2, true)]

  /** A sandbox without requests and channels leaves. */
  lemma LeavingIdle(s: State, id: SandboxId, ws: Socket)
    requires id in s.connections && s.connections[id] == ws
    requires s.pending == map[] && s.counts == map[] && s.timers == map[] && s.channels == map[] && s.sandboxChannels == map[]
    ensures Unregister(s, id, ws) == s.(connections := s.connections - {id}, socketOwner := s.socketOwner - {ws},
                                        handlers := s.handlers - {ws}, closed := s.closed + {ws})
  {
    assert RequestsOf(s.pending, id) == {} && TasksOf(s.pending, {}) == {} && Departures({}) == {};
    assert LeaveChannels(s.channels, {}, id) == map[];
    assert s.settled + multiset({}) == s.settled;
  }

  lemma Leaving(s: State)
    requires s == State(map["a" := 0, "b" := 1], map[0 := "a", 1 := "b"], map[], map[], map[], map[],
                        map[0 := "a", 1 := "b", 2 := "a"], {}, map[], map[], 0, multiset{})
    ensures Enabled(s, Closed(0)) && Step(TWO, s, Closed(0)) == REJECTED
  {
    LeavingIdle(s, "a", 0);
    assert s.connections - {"a"} == map["b" := 1] && s.socketOwner - {0} == map[1 := "b"];
    assert s.handlers - {0} == map[1 := "b", 2 := "a"];
  }

  lemma Rejecting()
    ensures Reaches(TWO, EMPTY_STATE, [Accepted("a", 0)] + [Accepted("b", 1)] + [Accepted("a", 2)] + [Closed(0)], REJECTED)
  {
    var s1 := Register(EMPTY_STATE, "a", 0);
    var s2 := Register(s1, "b", 1);
    var s3 := Register(s2, "a", 2);
    var es := [Accepted("a", 0)];
    ReachesOne(TWO, EMPTY_STATE, Accepted("a", 0), s1);
    ReachesNext(TWO, EMPTY_STATE, es, s1, Accepted("b", 1), s2);
    es := es + [Accepted("b", 1)];
    ReachesNext(TWO, EMPTY_STATE, es, s2, Accepted("a", 2), s3);
    es := es + [Accepted("a", 2)];
    Leaving(s3);
    ReachesNext(TWO, EMPTY_STATE, es, s3, Closed(0), REJECTED);
  }

  lemma Stranding()
    ensures Step(TWO, REJECTED, RequestFrame(2, "r0", "b"))
         == STRANDED.(deliveries := map[2 := Delivery("r0", "a", 0, 1, true)])
    ensures !Disciplined(TWO, REJECTED, RequestFrame(2, "r0", "b"))
    ensures Step(TWO, STRANDED.(deliveries := map[2 := Delivery("r0", "a", 0, 1, true)]), DeliveryEnds(2, true)) == STRANDED
  {
    var s := STRANDED.(deliveries := map[2 := Delivery("r0", "a", 0, 1, true)]);
    assert Step(TWO, s, DeliveryEnds(2, true)).deliveries == map[];
  }

  /** A request from a socket that was rejected as a duplicate, read after the original has left: the sandbox has a
      pending request and a count without being connected, and a matched reply finds no requester. */
  lemma RejectedSocketStrandsRequest()
    ensures EnabledRun(TWO, EMPTY_STATE, FROM_REJECTED) && !DisciplinedRun(TWO, EMPTY_STATE, FROM_REJECTED)
    ensures var s := Run(TWO, EMPTY_STATE, FROM_REJECTED);
      "a" !in s.connections && Count(s.counts, "a") == 1 && Reply(s, "r0").1 == RequesterGone
  {
    Rejecting();
    Stranding();
    var s := STRANDED.(deliveries := map[2 := Delivery("r0", "a", 0, 1, true)]);
    var es := [Accepted("a", 0)] + [Accepted("b", 1)] + [Accepted("a", 2)] + [Closed(0)];
    ReachesNext(TWO, EMPTY_STATE, es, REJECTED, RequestFrame(2, "r0", "b"), s);
    es := es + [RequestFrame(2, "r0", "b")];
    ReachesNext(TWO, EMPTY_STATE, es, s, DeliveryEnds(2, true), STRANDED);
  }
}
