/** Bounded delivery queues, and a stream of chunks on its way from sender to listener. */
module StreamModel {
  /** `stream` is empty for messages that belong to no stream. */
  datatype Message = Message(stream: string, chunk: nat, done: bool, payload: string)

  /** Evict the oldest item of a full queue, then append.  A capacity of zero means unbounded. */
  function PutOrDropOldest<T>(q: seq<T>, capacity: nat, item: T): seq<T> {
    (if capacity > 0 && |q| >= capacity then q[1..] else q) + [item]
  }

  // ---- one queue ---------------------------------------------------------------------------------

  datatype QueueEvent<T> = Put(item: T) | Get

  /** A queue with everything it was ever given and everything that was taken from it. */
  datatype History<T> = History(queue: seq<T>, given: seq<T>, taken: seq<T>)

  function QueueStep<T>(h: History<T>, capacity: nat, e: QueueEvent<T>): History<T> {
    match e
    case Put(item) => History(PutOrDropOldest(h.queue, capacity, item), h.given + [item], h.taken)
    case Get => if |h.queue| == 0 then h else History(h.queue[1..], h.given, h.taken + [h.queue[0]])
  }

  function QueueRun<T>(h: History<T>, capacity: nat, es: seq<QueueEvent<T>>): History<T>
    decreases |es|
  {
    if es == [] then h else QueueRun(QueueStep(h, capacity, es[0]), capacity, es[1..])
  }

  predicate Suffix<T(==)>(s: seq<T>, of: seq<T>) {
    |s| <= |of| && s == of[|of| - |s|..]
  }

  /** The queue is bounded and holds the most recent deliveries without a gap. */
  lemma {:induction false} QueueIsRecentSuffix<T>(h: History<T>, capacity: nat, es: seq<QueueEvent<T>>)
    requires Suffix(h.queue, h.given) && (capacity > 0 ==> |h.queue| <= capacity)
    ensures var g := QueueRun(h, capacity, es);
      Suffix(g.queue, g.given) && (capacity > 0 ==> |g.queue| <= capacity)
    decreases |es|
  {
    if es != [] {
      QueueIsRecentSuffix(QueueStep(h, capacity, es[0]), capacity, es[1..]);
    }
  }

  /** How many items a queue loses: one for each item put while it is full. */
  function Losses<T>(h: History<T>, capacity: nat, es: seq<QueueEvent<T>>): nat
    decreases |es|
  {
    if es == [] then 0
    else
      (if es[0].Put? && capacity > 0 && |h.queue| >= capacity then 1 else 0)
      + Losses(QueueStep(h, capacity, es[0]), capacity, es[1..])
  }

  /** What is given is taken, still queued, or one of the losses. */
  lemma {:induction false} QueueConserves<T>(h: History<T>, capacity: nat, es: seq<QueueEvent<T>>)
    ensures var g := QueueRun(h, capacity, es);
      && h.given <= g.given
      && |g.taken| + |g.queue| + Losses(h, capacity, es) == |h.taken| + |h.queue| + |g.given| - |h.given|
    decreases |es|
  {
    if es != [] {
      QueueConserves(QueueStep(h, capacity, es[0]), capacity, es[1..]);
    }
  }

  lemma StepLosesNothing<T>(h: History<T>, capacity: nat, e: QueueEvent<T>)
    requires !(e.Put? && capacity > 0 && |h.queue| >= capacity)
    ensures var next := QueueStep(h, capacity, e);
      h.given <= next.given && next.taken + next.queue == h.taken + h.queue + next.given[|h.given|..]
  {
  }

  /** A queue that is never full when something is put loses nothing and keeps the order. */
  lemma {:induction false} RoomLosesNothing<T>(h: History<T>, capacity: nat, es: seq<QueueEvent<T>>)
    requires Losses(h, capacity, es) == 0
    ensures var g := QueueRun(h, capacity, es);
      h.given <= g.given && g.taken + g.queue == h.taken + h.queue + g.given[|h.given|..]
    decreases |es|
  {
    if es != [] {
      var next, g := QueueStep(h, capacity, es[0]), QueueRun(h, capacity, es);
      StepLosesNothing(h, capacity, es[0]);
      RoomLosesNothing(next, capacity, es[1..]);
      hide QueueStep;
      assert g.given[|h.given|..] == next.given[|h.given|..] + g.given[|next.given|..];
    }
  }

  // ---- the way of a stream -----------------------------------------------------------------------

  /** Chunks of `stream` are sent with numbers 0, 1, ...; the one numbered `last` is the sentinel.
      The two links are FIFO and carry other messages as well. */
  datatype State = State(
    next: nat,
    uplink: seq<Message>,
    downlink: seq<Message>,
    queue: seq<Message>,
    read: seq<Message>)

  datatype Event =
    | SendChunk(payload: string)
    | OtherSent(message: Message)        // another message enters the uplink
    | OtherRouted(message: Message)      // another sandbox's message enters the downlink
    | BrokerForwards                     // the broker passes on the head of the uplink ...
    | BrokerRefuses                      // ... or cannot reach the target, and drops it
    | ClientReceives
    | ListenerReads
    | UplinkCloses
    | DownlinkCloses

  predicate Enabled(s: State, stream: string, last: nat, e: Event) {
    match e
    case SendChunk(_) => s.next <= last
    case OtherSent(m) => m.stream != stream
    case OtherRouted(m) => m.stream != stream
    case BrokerForwards => s.uplink != []
    case BrokerRefuses => s.uplink != []
    case ClientReceives => s.downlink != []
    case ListenerReads => s.queue != []
    case _ => true
  }

  function Step(s: State, stream: string, last: nat, capacity: nat, e: Event): State
    requires Enabled(s, stream, last, e)
  {
    match e
    case SendChunk(payload) =>
      var done := s.next == last;
      s.(next := s.next + 1, uplink := s.uplink + [Message(stream, s.next, done, if done then "" else payload)])
    case OtherSent(m) => s.(uplink := s.uplink + [m])
    case OtherRouted(m) => s.(downlink := s.downlink + [m])
    case BrokerForwards => s.(uplink := s.uplink[1..], downlink := s.downlink + [s.uplink[0]])
    case BrokerRefuses => s.(uplink := s.uplink[1..])
    case ClientReceives => s.(downlink := s.downlink[1..], queue := PutOrDropOldest(s.queue, capacity, s.downlink[0]))
    case ListenerReads => s.(queue := s.queue[1..], read := s.read + [s.queue[0]])
    case UplinkCloses => s.(uplink := [])
    case DownlinkCloses => s.(downlink := [])
  }

  predicate EnabledRun(s: State, stream: string, last: nat, capacity: nat, es: seq<Event>)
    decreases |es|
  {
    es == [] || (Enabled(s, stream, last, es[0])
                 && EnabledRun(Step(s, stream, last, capacity, es[0]), stream, last, capacity, es[1..]))
  }

  function Run(s: State, stream: string, last: nat, capacity: nat, es: seq<Event>): State
    requires EnabledRun(s, stream, last, capacity, es)
    decreases |es|
  {
    if es == [] then s else Run(Step(s, stream, last, capacity, es[0]), stream, last, capacity, es[1..])
  }

  /** The chunks of the stream among some messages, in the order given. */
  function Chunks(ms: seq<Message>, stream: string): seq<Message> {
    if ms == [] then []
    else (if ms[0].stream == stream then [ms[0]] else []) + Chunks(ms[1..], stream)
  }

  /** Numbers below `next`, strictly increasing, and only the last number is marked done. */
  predicate InOrder(cs: seq<Message>, last: nat, next: nat) {
    && (forall i, j :: 0 <= i < j < |cs| ==> cs[i].chunk < cs[j].chunk)
    && (forall i :: 0 <= i < |cs| ==> cs[i].chunk < next && (cs[i].done <==> cs[i].chunk == last))
  }

  /** Everything that is read, queued or under way, oldest first. */
  function Way(s: State): seq<Message> {
    s.read + s.queue + s.downlink + s.uplink
  }

  lemma {:induction false} ChunksConcat(a: seq<Message>, b: seq<Message>, stream: string)
    ensures Chunks(a + b, stream) == Chunks(a, stream) + Chunks(b, stream)
    decreases |a|
  {
    if a == [] {
      assert a + b == b;
    } else {
      var head := if a[0].stream == stream then [a[0]] else [];
      assert (a + b)[1..] == a[1..] + b && (a + b)[0] == a[0];
      ChunksConcat(a[1..], b, stream);
      assert head + (Chunks(a[1..], stream) + Chunks(b, stream)) == (head + Chunks(a[1..], stream)) + Chunks(b, stream);
    }
  }

  lemma OrderedParts(a: seq<Message>, dropped: seq<Message>, b: seq<Message>, last: nat, next: nat)
    requires InOrder(a + dropped + b, last, next)
    ensures InOrder(a + b, last, next)
  {
    var all, left := a + dropped + b, a + b;
    forall i | 0 <= i < |left|
      ensures left[i] == all[if i < |a| then i else i + |dropped|]
    {
    }
  }

  /** Dropping a stretch of messages keeps the rest in order. */
  lemma DropKeepsOrder(a: seq<Message>, dropped: seq<Message>, b: seq<Message>, stream: string, last: nat, next: nat)
    requires InOrder(Chunks(a + dropped + b, stream), last, next)
    ensures InOrder(Chunks(a + b, stream), last, next)
  {
    ChunksConcat(a + dropped, b, stream);
    ChunksConcat(a, dropped, stream);
    ChunksConcat(a, b, stream);
    OrderedParts(Chunks(a, stream), Chunks(dropped, stream), Chunks(b, stream), last, next);
  }

  lemma OtherKeepsOrder(a: seq<Message>, m: Message, b: seq<Message>, stream: string)
    requires m.stream != stream
    ensures Chunks(a + [m] + b, stream) == Chunks(a + b, stream)
  {
    ChunksConcat(a + [m], b, stream);
    ChunksConcat(a, [m], stream);
    ChunksConcat(a, b, stream);
    assert [m][1..] == [];
  }

  lemma AppendKeepsOrder(way: seq<Message>, m: Message, last: nat, next: nat)
    requires InOrder(Chunks(way, m.stream), last, next) && m.chunk == next && (m.done <==> next == last)
    ensures InOrder(Chunks(way + [m], m.stream), last, next + 1)
  {
    ChunksConcat(way, [m], m.stream);
    assert [m][1..] == [];
  }

  lemma ReceiveKeepsOrder(s: State, stream: string, last: nat, capacity: nat)
    requires s.downlink != [] && InOrder(Chunks(Way(s), stream), last, s.next)
    ensures InOrder(Chunks(Way(Step(s, stream, last, capacity, ClientReceives)), stream), last, s.next)
  {
    var t := Step(s, stream, last, capacity, ClientReceives);
    if capacity > 0 && |s.queue| >= capacity {
      var after := s.queue[1..] + s.downlink + s.uplink;
      assert Way(s) == s.read + [s.queue[0]] + after;
      assert Way(t) == s.read + after;
      DropKeepsOrder(s.read, [s.queue[0]], after, stream, last, s.next);
    } else {
      assert Way(t) == Way(s);
    }
  }

  lemma SentKeepsOrder(s: State, t: State, stream: string, last: nat)
    requires InOrder(Chunks(Way(s), stream), last, s.next) && |t.uplink| == |s.uplink| + 1
    requires var m := t.uplink[|s.uplink|];
      t == s.(next := s.next + 1, uplink := s.uplink + [m]) && m.stream == stream && m.chunk == s.next
      && (m.done <==> s.next == last)
    ensures InOrder(Chunks(Way(t), stream), last, t.next)
  {
    var m := t.uplink[|s.uplink|];
    assert Way(t) == Way(s) + [m];
    AppendKeepsOrder(Way(s), m, last, s.next);
  }

  lemma RefusedKeepsOrder(s: State, t: State, stream: string, last: nat)
    requires s.uplink != [] && t == s.(uplink := s.uplink[1..]) && InOrder(Chunks(Way(s), stream), last, s.next)
    ensures InOrder(Chunks(Way(t), stream), last, t.next)
  {
    var arrived := s.read + s.queue + s.downlink;
    assert Way(s) == arrived + [s.uplink[0]] + s.uplink[1..];
    DropKeepsOrder(arrived, [s.uplink[0]], s.uplink[1..], stream, last, s.next);
  }

  lemma LostUplinkKeepsOrder(s: State, t: State, stream: string, last: nat)
    requires t == s.(uplink := []) && InOrder(Chunks(Way(s), stream), last, s.next)
    ensures InOrder(Chunks(Way(t), stream), last, t.next)
  {
    var arrived := s.read + s.queue + s.downlink;
    assert Way(s) == arrived + s.uplink + [] && Way(t) == arrived + [];
    DropKeepsOrder(arrived, s.uplink, [], stream, last, s.next);
  }

  lemma LostDownlinkKeepsOrder(s: State, t: State, stream: string, last: nat)
    requires t == s.(downlink := []) && InOrder(Chunks(Way(s), stream), last, s.next)
    ensures InOrder(Chunks(Way(t), stream), last, t.next)
  {
    assert Way(t) == s.read + s.queue + s.uplink;
    DropKeepsOrder(s.read + s.queue, s.downlink, s.uplink, stream, last, s.next);
  }

  lemma StepKeepsOrder(s: State, stream: string, last: nat, capacity: nat, e: Event)
    requires Enabled(s, stream, last, e) && InOrder(Chunks(Way(s), stream), last, s.next)
    ensures InOrder(Chunks(Way(Step(s, stream, last, capacity, e)), stream), last, Step(s, stream, last, capacity, e).next)
  {
    hide InOrder, Chunks;
    var t := Step(s, stream, last, capacity, e);
    var arrived := s.read + s.queue + s.downlink;
    match e
    case SendChunk(_) => SentKeepsOrder(s, t, stream, last);
    case OtherSent(m) =>
      assert Way(t) == Way(s) + [m] + [] && Way(s) == Way(s) + [];
      OtherKeepsOrder(Way(s), m, [], stream);
    case OtherRouted(m) =>
      assert Way(t) == arrived + [m] + s.uplink;
      OtherKeepsOrder(arrived, m, s.uplink, stream);
    case BrokerForwards =>
      assert Way(t) == Way(s);
    case BrokerRefuses => RefusedKeepsOrder(s, t, stream, last);
    case ClientReceives => ReceiveKeepsOrder(s, stream, last, capacity);
    case ListenerReads =>
      assert Way(t) == Way(s);
    case UplinkCloses => LostUplinkKeepsOrder(s, t, stream, last);
    case DownlinkCloses => LostDownlinkKeepsOrder(s, t, stream, last);
  }

  lemma {:induction false} RunKeepsOrder(s: State, stream: string, last: nat, capacity: nat, es: seq<Event>)
    requires EnabledRun(s, stream, last, capacity, es) && InOrder(Chunks(Way(s), stream), last, s.next)
    ensures var t := Run(s, stream, last, capacity, es); InOrder(Chunks(Way(t), stream), last, t.next)
    decreases |es|
  {
    if es != [] {
      StepKeepsOrder(s, stream, last, capacity, es[0]);
      RunKeepsOrder(Step(s, stream, last, capacity, es[0]), stream, last, capacity, es[1..]);
    }
  }

  const START := State(0, [], [], [], [])

  lemma StartInOrder(stream: string, last: nat)
    ensures InOrder(Chunks(Way(START), stream), last, START.next)
  {
    assert Way(START) == [];
  }

  lemma DoneIsLast(cs: seq<Message>, last: nat, next: nat)
    requires InOrder(cs, last, next) && next <= last + 1
    ensures forall i :: 0 <= i < |cs| && cs[i].done ==> i == |cs| - 1
  {
    forall i | 0 <= i < |cs| && i != |cs| - 1
      ensures !cs[i].done
    {
      assert cs[i].chunk < cs[|cs| - 1].chunk;
    }
  }

  /** What is read is a prefix of the way. */
  lemma ReadInOrder(s: State, stream: string, last: nat)
    requires InOrder(Chunks(Way(s), stream), last, s.next)
    ensures InOrder(Chunks(s.read, stream), last, s.next)
    ensures s.next <= last + 1 ==>
      forall i :: 0 <= i < |Chunks(s.read, stream)| && Chunks(s.read, stream)[i].done ==> i == |Chunks(s.read, stream)| - 1
  {
    var after := s.queue + s.downlink + s.uplink;
    assert Way(s) == s.read + after + [] && s.read == s.read + [];
    DropKeepsOrder(s.read, after, [], stream, last, s.next);
    if s.next <= last + 1 {
      DoneIsLast(Chunks(s.read, stream), last, s.next);
    }
  }

  lemma {:induction false} RunBounded(s: State, stream: string, last: nat, capacity: nat, es: seq<Event>)
    requires EnabledRun(s, stream, last, capacity, es) && s.next <= last + 1
    ensures Run(s, stream, last, capacity, es).next <= last + 1
    decreases |es|
  {
    if es != [] {
      RunBounded(Step(s, stream, last, capacity, es[0]), stream, last, capacity, es[1..]);
    }
  }

  /** Whatever is dropped, refused, lost or mixed in between, the chunks a listener reads have strictly
      increasing numbers, and the `done` chunk is read last if it is read at all. */
  lemma ListenerReadsInOrder(stream: string, last: nat, capacity: nat, es: seq<Event>)
    requires EnabledRun(START, stream, last, capacity, es)
    ensures var cs := Chunks(Run(START, stream, last, capacity, es).read, stream);
      && (forall i, j :: 0 <= i < j < |cs| ==> cs[i].chunk < cs[j].chunk)
      && (forall i :: 0 <= i < |cs| && cs[i].done ==> i == |cs| - 1)
  {
    StartInOrder(stream, last);
    RunKeepsOrder(START, stream, last, capacity, es);
    RunBounded(START, stream, last, capacity, es);
    ReadInOrder(Run(START, stream, last, capacity, es), stream, last);
  }

  // ---- what the chunks carry ---------------------------------------------------------------------

  function Payloads(es: seq<Event>): seq<string> {
    if es == [] then [] else (if es[0].SendChunk? then [es[0].payload] else []) + Payloads(es[1..])
  }

  /** The chunk numbered `n` of a stream that sends these payloads, of which the last is not used. */
  function Chunk(stream: string, last: nat, payloads: seq<string>, n: nat): Message
    requires n < |payloads|
  {
    Message(stream, n, n == last, if n == last then "" else payloads[n])
  }

  predicate Genuine(m: Message, stream: string, last: nat, payloads: seq<string>) {
    m.stream == stream ==> m.chunk < |payloads| && m == Chunk(stream, last, payloads, m.chunk)
  }

  ghost predicate AllGenuine(s: State, stream: string, last: nat, payloads: seq<string>) {
    |payloads| == s.next && forall m :: m in Way(s) ==> Genuine(m, stream, last, payloads)
  }

  lemma StepKeepsGenuine(s: State, stream: string, last: nat, capacity: nat, e: Event, payloads: seq<string>)
    requires Enabled(s, stream, last, e) && AllGenuine(s, stream, last, payloads)
    ensures AllGenuine(Step(s, stream, last, capacity, e), stream, last, payloads + Payloads([e]))
  {
    var t, sent := Step(s, stream, last, capacity, e), payloads + Payloads([e]);
    assert [e][1..] == [];
    forall m | m in Way(t)
      ensures Genuine(m, stream, last, sent)
    {
      assert m in Way(s) ==> Genuine(m, stream, last, payloads);
    }
  }

  lemma {:induction false} RunKeepsGenuine(s: State, stream: string, last: nat, capacity: nat, es: seq<Event>,
                                           payloads: seq<string>)
    requires EnabledRun(s, stream, last, capacity, es) && AllGenuine(s, stream, last, payloads)
    ensures AllGenuine(Run(s, stream, last, capacity, es), stream, last, payloads + Payloads(es))
    decreases |es|
  {
    if es == [] {
      assert payloads + Payloads(es) == payloads;
    } else {
      StepKeepsGenuine(s, stream, last, capacity, es[0], payloads);
      assert [es[0]][1..] == [] && payloads + Payloads([es[0]]) + Payloads(es[1..]) == payloads + Payloads(es);
      RunKeepsGenuine(Step(s, stream, last, capacity, es[0]), stream, last, capacity, es[1..], payloads + Payloads([es[0]]));
    }
  }

  /** Whatever gets lost, a chunk that a listener reads is one that was sent, with the payload of its own number; the
      chunk marked done is empty. */
  lemma ChunksAreGenuine(stream: string, last: nat, capacity: nat, es: seq<Event>, m: Message)
    requires EnabledRun(START, stream, last, capacity, es)
    requires m in Run(START, stream, last, capacity, es).read && m.stream == stream
    ensures m.chunk < |Payloads(es)| && m == Chunk(stream, last, Payloads(es), m.chunk)
  {
    RunKeepsGenuine(START, stream, last, capacity, es, []);
    assert [] + Payloads(es) == Payloads(es);
    assert m in Way(Run(START, stream, last, capacity, es));
  }

  // ---- a run that loses nothing ------------------------------------------------------------------

  /** No refusal, no closed connection, and no message put into a full queue. */
  predicate Keeps(s: State, capacity: nat, e: Event) {
    match e
    case BrokerRefuses => false
    case UplinkCloses => false
    case DownlinkCloses => false
    case ClientReceives => capacity == 0 || |s.queue| < capacity
    case _ => true
  }

  predicate KeepsAll(s: State, stream: string, last: nat, capacity: nat, es: seq<Event>)
    requires EnabledRun(s, stream, last, capacity, es)
    decreases |es|
  {
    es == [] || (Keeps(s, capacity, es[0])
                 && KeepsAll(Step(s, stream, last, capacity, es[0]), stream, last, capacity, es[1..]))
  }

  lemma StepKeepsChunks(s: State, stream: string, last: nat, capacity: nat, e: Event)
    requires Enabled(s, stream, last, e) && Keeps(s, capacity, e)
    ensures var before := |Chunks(Way(s), stream)|;
      |Chunks(Way(Step(s, stream, last, capacity, e)), stream)| == before + |Payloads([e])|
  {
    var t := Step(s, stream, last, capacity, e);
    var arrived := s.read + s.queue + s.downlink;
    assert [e][1..] == [];
    match e
    case SendChunk(_) =>
      var m := t.uplink[|s.uplink|];
      assert Way(t) == Way(s) + [m] && [m][1..] == [];
      ChunksConcat(Way(s), [m], stream);
    case OtherSent(m) =>
      assert Way(t) == Way(s) + [m] + [] && Way(s) == Way(s) + [];
      OtherKeepsOrder(Way(s), m, [], stream);
    case OtherRouted(m) =>
      assert Way(t) == arrived + [m] + s.uplink;
      OtherKeepsOrder(arrived, m, s.uplink, stream);
    case BrokerForwards =>
      assert Way(t) == Way(s);
    case ClientReceives =>
      assert Way(t) == Way(s);
    case ListenerReads =>
      assert Way(t) == Way(s);
  }

  lemma {:induction false} RunKeepsChunks(s: State, stream: string, last: nat, capacity: nat, es: seq<Event>)
    requires EnabledRun(s, stream, last, capacity, es) && KeepsAll(s, stream, last, capacity, es)
    ensures var t := Run(s, stream, last, capacity, es);
      |Chunks(Way(t), stream)| == |Chunks(Way(s), stream)| + |Payloads(es)|
    decreases |es|
  {
    if es != [] {
      StepKeepsChunks(s, stream, last, capacity, es[0]);
      assert [es[0]][1..] == [];
      RunKeepsChunks(Step(s, stream, last, capacity, es[0]), stream, last, capacity, es[1..]);
    }
  }

  lemma {:induction false} RoomAbove(cs: seq<Message>, last: nat, i: nat)
    requires InOrder(cs, last, |cs|) && i < |cs|
    ensures cs[i].chunk <= i
    decreases |cs| - i
  {
    if i < |cs| - 1 {
      RoomAbove(cs, last, i + 1);
    }
  }

  lemma {:induction false} InOrderIsIdentity(cs: seq<Message>, last: nat, i: nat)
    requires InOrder(cs, last, |cs|) && i < |cs|
    ensures cs[i].chunk == i
    decreases i
  {
    if i > 0 {
      InOrderIsIdentity(cs, last, i - 1);
    }
    RoomAbove(cs, last, i);
  }

  lemma {:induction false} ChunkIsThere(ms: seq<Message>, stream: string, m: Message)
    requires m in Chunks(ms, stream)
    ensures m in ms && m.stream == stream
    decreases |ms|
  {
    if ms[0].stream == stream && m == ms[0] {
    } else {
      ChunkIsThere(ms[1..], stream, m);
    }
  }

  /** Without refusals, closed connections or full queues, every chunk sent is on its way, in its place and with its
      payload; so a listener that has read everything has read exactly the stream. */
  lemma NothingIsLost(stream: string, last: nat, capacity: nat, es: seq<Event>)
    requires EnabledRun(START, stream, last, capacity, es) && KeepsAll(START, stream, last, capacity, es)
    ensures var (t, payloads) := (Run(START, stream, last, capacity, es), Payloads(es));
      var cs := Chunks(Way(t), stream);
      |cs| == |payloads| && forall i :: 0 <= i < |cs| ==> cs[i] == Chunk(stream, last, payloads, i)
  {
    var (t, payloads) := (Run(START, stream, last, capacity, es), Payloads(es));
    var cs := Chunks(Way(t), stream);
    StartInOrder(stream, last);
    assert Way(START) == [];
    RunKeepsOrder(START, stream, last, capacity, es);
    RunKeepsChunks(START, stream, last, capacity, es);
    RunKeepsGenuine(START, stream, last, capacity, es, []);
    assert [] + payloads == payloads;
    forall i | 0 <= i < |cs|
      ensures cs[i] == Chunk(stream, last, payloads, i)
    {
      InOrderIsIdentity(cs, last, i);
      ChunkIsThere(Way(t), stream, cs[i]);
      assert Genuine(cs[i], stream, last, payloads);
    }
  }
}

/** The queue object and the sender's loop. */
module StreamService {
  import opened StreamModel

  class BoundedQueue<T> {
    const maxsize: nat
    var items: seq<T>

    constructor (maxsize: nat)
      ensures this.maxsize == maxsize && items == []
    {
      this.maxsize, items := maxsize, [];
    }

    predicate Full()
      reads this
    {
      maxsize > 0 && |items| >= maxsize
    }

    method GetNowait() returns (item: T)
      requires items != []
      modifies this`items
      ensures item == old(items)[0] && items == old(items)[1..]
    {
      item, items := items[0], items[1..];
    }

    method PutNowait(item: T)
      requires !Full()
      modifies this`items
      ensures items == old(items) + [item]
    {
      items := items + [item];
    }

    /** Never raises `QueueFull`, and loses nothing but the oldest item of a full queue. */
    method Put(item: T)
      requires maxsize > 0 ==> |items| <= maxsize
      modifies this`items
      ensures items == PutOrDropOldest(old(items), maxsize, item)
      ensures maxsize > 0 ==> |items| <= maxsize
    {
      if Full() {
        var _ := GetNowait();
      }
      PutNowait(item);
    }
  }

  /** The frames `stream` sends: numbered from zero, with an empty final one. */
  method Stream(stream: string, payloads: seq<string>) returns (sent: seq<Message>)
    ensures |sent| == |payloads| + 1
    ensures forall i :: 0 <= i < |payloads| ==> sent[i] == Message(stream, i, false, payloads[i])
    ensures sent[|payloads|] == Message(stream, |payloads|, true, "")
    ensures InOrder(sent, |payloads|, |payloads| + 1)
  {
    sent := [];
    var number := 0;
    while number < |payloads|
      invariant number == |sent| <= |payloads|
      invariant forall i :: 0 <= i < number ==> sent[i] == Message(stream, i, false, payloads[i])
    {
      sent := sent + [Message(stream, number, false, payloads[number])];
      number := number + 1;
    }
    sent := sent + [Message(stream, number, true, "")];
  }
}
