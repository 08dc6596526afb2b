/** Futures of the bus client: requests waiting for replies and frames waiting for acknowledgements. */
module ClientModel {
  type MessageId = string
  type FutureId = nat

  datatype Failure = BrokerError | BrokerTimeout | ConnectionClosed

  datatype Future =
    | Unsettled
    | Replied(replyTo: MessageId)
    | Acknowledged
    | Failed(why: Failure)
    | Cancelled

  datatype State = State(
    futures: seq<Future>,                        // every future ever created
    owner: seq<MessageId>,                       // the message each was created for
    pendingFutures: map<MessageId, FutureId>,
    pendingAcks: map<MessageId, FutureId>,
    settlements: multiset<FutureId>)             // history: every time a result, exception or cancellation was set

  const INITIAL := State([], [], map[], map[], multiset{})

  datatype Event =
    | RequestStarts(id: MessageId)               // request(): future registered before the frame is sent
    | AckedSendStarts(id: MessageId)             // send / publish / subscribe
    | DeliverFrame(replyTo: MessageId)
    | AckFrame(id: MessageId)
    | ErrorFrame(id: MessageId)
    | TimeoutFrame(id: MessageId)
    | WaitExpires(future: FutureId)              // the caller's own timer cancels the future ...
    | RequesterWakes(future: FutureId)           // ... and the caller cleans up when it runs again
    | SenderWakes(future: FutureId)
    | ConnectionEnds                             // the receive loop ends, or close()

  function Done(f: Future): bool { !f.Unsettled? }

  /** `set_result`, `set_exception` or `cancel`, whatever the state of the future. */
  function Settle(s: State, f: FutureId, value: Future): State {
    if f >= |s.futures| then s
    else s.(futures := s.futures[f := value], settlements := s.settlements + multiset{f})
  }

  /** The guarded form every handler uses. */
  function SettleIfOpen(s: State, f: FutureId, value: Future): State {
    if f < |s.futures| && !Done(s.futures[f]) then Settle(s, f, value) else s
  }

  function StartRequest(s: State, id: MessageId): State {
    s.(futures := s.futures + [Unsettled], owner := s.owner + [id], pendingFutures := s.pendingFutures[id := |s.futures|])
  }

  function StartAckedSend(s: State, id: MessageId): State {
    s.(futures := s.futures + [Unsettled], owner := s.owner + [id], pendingAcks := s.pendingAcks[id := |s.futures|])
  }

  function OnDeliver(s: State, replyTo: MessageId): State {
    if replyTo != "" && replyTo in s.pendingFutures
    then SettleIfOpen(s, s.pendingFutures[replyTo], Replied(replyTo)).(pendingFutures := s.pendingFutures - {replyTo})
    else s
  }

  function OnAck(s: State, id: MessageId): State {
    if id in s.pendingAcks
    then SettleIfOpen(s, s.pendingAcks[id], Acknowledged).(pendingAcks := s.pendingAcks - {id})
    else s
  }

  function OnError(s: State, id: MessageId): State {
    if id in s.pendingFutures
    then SettleIfOpen(s, s.pendingFutures[id], Failed(BrokerError)).(pendingFutures := s.pendingFutures - {id})
    else if id in s.pendingAcks
    then SettleIfOpen(s, s.pendingAcks[id], Failed(BrokerError)).(pendingAcks := s.pendingAcks - {id})
    else s
  }

  function OnTimeout(s: State, id: MessageId): State {
    if id in s.pendingFutures
    then SettleIfOpen(s, s.pendingFutures[id], Failed(BrokerTimeout)).(pendingFutures := s.pendingFutures - {id})
    else s
  }

  /** The futures of one table that are still open. */
  function OpenIn(futures: seq<Future>, table: set<FutureId>): set<FutureId> {
    set f | f in table && f < |futures| && futures[f].Unsettled?
  }

  function FailThese(futures: seq<Future>, failing: set<FutureId>): seq<Future> {
    seq(|futures|, f requires 0 <= f < |futures| => if f in failing then Failed(ConnectionClosed) else futures[f])
  }

  /** Every open future of the first table fails, then every one still open of the second; both tables are cleared. */
  function FailPending(s: State): State {
    var first := OpenIn(s.futures, s.pendingFutures.Values);
    var between := FailThese(s.futures, first);
    var second := OpenIn(between, s.pendingAcks.Values);
    s.(futures := FailThese(between, second), pendingFutures := map[], pendingAcks := map[],
       settlements := s.settlements + multiset(first) + multiset(second))
  }

  predicate Enabled(s: State, e: Event) {
    match e
    case RequestStarts(id) => id !in s.owner        // ids are random 128-bit values: never used before
    case AckedSendStarts(id) => id !in s.owner
    case WaitExpires(f) => f < |s.futures| && s.futures[f].Unsettled?
    case RequesterWakes(f) => f < |s.futures| && f < |s.owner| && s.futures[f].Cancelled?
    case SenderWakes(f) => f < |s.futures| && f < |s.owner| && s.futures[f].Cancelled?
    case _ => true
  }

  function Step(s: State, e: Event): State
    requires Enabled(s, e)
  {
    match e
    case RequestStarts(id) => StartRequest(s, id)
    case AckedSendStarts(id) => StartAckedSend(s, id)
    case DeliverFrame(replyTo) => OnDeliver(s, replyTo)
    case AckFrame(id) => OnAck(s, id)
    case ErrorFrame(id) => OnError(s, id)
    case TimeoutFrame(id) => OnTimeout(s, id)
    case WaitExpires(f) => Settle(s, f, Cancelled)
    case RequesterWakes(f) => s.(pendingFutures := s.pendingFutures - {s.owner[f]})
    case SenderWakes(f) => s.(pendingAcks := s.pendingAcks - {s.owner[f]})
    case ConnectionEnds => FailPending(s)
  }

  predicate EnabledRun(s: State, es: seq<Event>)
    decreases |es|
  {
    es == [] || (Enabled(s, es[0]) && EnabledRun(Step(s, es[0]), es[1..]))
  }

  function Run(s: State, es: seq<Event>): State
    requires EnabledRun(s, es)
    decreases |es|
  {
    if es == [] then s else Run(Step(s, es[0]), es[1..])
  }
}

module ClientProofs {
  import opened ClientModel

  /** Table entries lead to futures created for their own id. */
  predicate TableOk(table: map<MessageId, FutureId>, owner: seq<MessageId>) {
    forall id :: id in table ==> table[id] < |owner| && owner[table[id]] == id
  }

  /** An open future can still be found in one of the tables. */
  predicate Findable(s: State, f: FutureId)
    requires f < |s.owner|
  {
    || (s.owner[f] in s.pendingFutures && s.pendingFutures[s.owner[f]] == f)
    || (s.owner[f] in s.pendingAcks && s.pendingAcks[s.owner[f]] == f)
  }

  /** A future has been settled exactly once if it is done, and never otherwise. */
  ghost predicate Counted(s: State) {
    forall f: FutureId :: s.settlements[f] == if f < |s.futures| && Done(s.futures[f]) then 1 else 0
  }

  /** Each future has its own message, and receives no other message's reply. */
  ghost predicate OwnMessages(s: State) {
    && |s.futures| == |s.owner|
    && (forall f, g :: 0 <= f < g < |s.owner| ==> s.owner[f] != s.owner[g])
    && TableOk(s.pendingFutures, s.owner) && TableOk(s.pendingAcks, s.owner)
    && (forall f :: 0 <= f < |s.futures| && s.futures[f].Replied? ==> s.futures[f].replyTo == s.owner[f])
  }

  ghost predicate OpenAreFindable(s: State)
    requires |s.futures| == |s.owner|
  {
    forall f :: 0 <= f < |s.futures| && s.futures[f].Unsettled? ==> Findable(s, f)
  }

  ghost predicate Inv(s: State) {
    Counted(s) && OwnMessages(s) && OpenAreFindable(s)
  }

  lemma RequestKeepsInv(s: State, id: MessageId)
    requires Inv(s) && id !in s.owner
    ensures Inv(StartRequest(s, id))
  {
    var t := StartRequest(s, id);
    forall f | 0 <= f < |s.futures| && Findable(s, f)
      ensures Findable(t, f)
    {
      assert t.owner[f] == s.owner[f] != id;
    }
    assert Findable(t, |s.futures|);
  }

  lemma AckedSendKeepsInv(s: State, id: MessageId)
    requires Inv(s) && id !in s.owner
    ensures Inv(StartAckedSend(s, id))
  {
    var t := StartAckedSend(s, id);
    forall f | 0 <= f < |s.futures| && Findable(s, f)
      ensures Findable(t, f)
    {
      assert t.owner[f] == s.owner[f] != id;
    }
    assert Findable(t, |s.futures|);
  }

  /** An entry leaves one of the tables, and its future is settled unless it already was. */
  lemma EntryClosed(s: State, id: MessageId, value: Future, t: State, fromRequests: bool)
    requires Inv(s) && Done(value) && (value.Replied? ==> value.replyTo == id)
    requires id in if fromRequests then s.pendingFutures else s.pendingAcks
    requires var f := if fromRequests then s.pendingFutures[id] else s.pendingAcks[id];
      t.futures == if s.futures[f].Unsettled? then s.futures[f := value] else s.futures
    requires var f := if fromRequests then s.pendingFutures[id] else s.pendingAcks[id];
      t.settlements == if s.futures[f].Unsettled? then s.settlements + multiset{f} else s.settlements
    requires t.owner == s.owner
    requires t.pendingFutures == if fromRequests then s.pendingFutures - {id} else s.pendingFutures
    requires t.pendingAcks == if fromRequests then s.pendingAcks else s.pendingAcks - {id}
    ensures Inv(t)
  {
    forall g | 0 <= g < |t.futures| && t.futures[g].Unsettled?
      ensures Findable(t, g)
    {
      assert Findable(s, g);
    }
  }

  lemma WakeKeepsInv(s: State, f: FutureId)
    requires Inv(s) && f < |s.futures| && s.futures[f].Cancelled?
    ensures Inv(s.(pendingFutures := s.pendingFutures - {s.owner[f]}))
    ensures Inv(s.(pendingAcks := s.pendingAcks - {s.owner[f]}))
  {
    var t, u := s.(pendingFutures := s.pendingFutures - {s.owner[f]}), s.(pendingAcks := s.pendingAcks - {s.owner[f]});
    assert Counted(t) && Counted(u) && OwnMessages(t) && OwnMessages(u);
    forall g | 0 <= g < |s.futures| && s.futures[g].Unsettled?
      ensures Findable(t, g) && Findable(u, g)
    {
      assert Findable(s, g) && s.owner[g] != s.owner[f];
    }
  }

  lemma ExpiryKeepsInv(s: State, f: FutureId)
    requires Inv(s) && f < |s.futures| && s.futures[f].Unsettled?
    ensures Inv(Settle(s, f, Cancelled))
  {
    var t := Settle(s, f, Cancelled);
    forall g | 0 <= g < |t.futures| && t.futures[g].Unsettled?
      ensures Findable(t, g)
    {
      assert Findable(s, g);
    }
  }

  /** The two loops reach every open future, each of them once. */
  lemma FailReachesAll(s: State)
    requires OwnMessages(s) && OpenAreFindable(s)
    ensures var first := OpenIn(s.futures, s.pendingFutures.Values);
      var second := OpenIn(FailThese(s.futures, first), s.pendingAcks.Values);
      && first !! second
      && (forall f: FutureId :: f in first + second <==> f < |s.futures| && s.futures[f].Unsettled?)
  {
    var first := OpenIn(s.futures, s.pendingFutures.Values);
    forall f: FutureId | f < |s.futures| && s.futures[f].Unsettled? && f !in first
      ensures f in s.pendingAcks.Values
    {
      assert Findable(s, f);
    }
  }

  lemma FailSettlesOnce(s: State, t: State, first: set<FutureId>, second: set<FutureId>)
    requires Counted(s) && first !! second
    requires forall f: FutureId :: f in first + second <==> f < |s.futures| && s.futures[f].Unsettled?
    requires t.futures == FailThese(FailThese(s.futures, first), second)
    requires t.settlements == s.settlements + multiset(first) + multiset(second)
    ensures Counted(t)
    ensures forall f :: 0 <= f < |s.futures| ==>
      t.futures[f] == if s.futures[f].Unsettled? then Failed(ConnectionClosed) else s.futures[f]
  {
    forall f: FutureId
      ensures f < |s.futures| ==> t.futures[f] == if s.futures[f].Unsettled? then Failed(ConnectionClosed) else s.futures[f]
      ensures t.settlements[f] == s.settlements[f] + (if f in first + second then 1 else 0)
    {
    }
  }

  lemma AllFailedKeepsInv(s: State, t: State)
    requires OwnMessages(s) && Counted(t)
    requires t.owner == s.owner && t.pendingFutures == map[] && t.pendingAcks == map[] && |t.futures| == |s.futures|
    requires forall f :: 0 <= f < |s.futures| ==>
      t.futures[f] == if s.futures[f].Unsettled? then Failed(ConnectionClosed) else s.futures[f]
    ensures Inv(t) && forall f :: 0 <= f < |t.futures| ==> Done(t.futures[f])
  {
  }

  lemma FailKeepsInv(s: State)
    requires Inv(s)
    ensures Inv(FailPending(s))
    ensures |FailPending(s).futures| == |s.futures|
    ensures forall f :: 0 <= f < |s.futures| ==> Done(FailPending(s).futures[f])
  {
    FailReachesAll(s);
    var first := OpenIn(s.futures, s.pendingFutures.Values);
    var second := OpenIn(FailThese(s.futures, first), s.pendingAcks.Values);
    var t := FailPending(s);
    assert t.futures == FailThese(FailThese(s.futures, first), second);
    FailSettlesOnce(s, t, first, second);
    AllFailedKeepsInv(s, t);
  }

  lemma StepKeepsInv(s: State, e: Event)
    requires Inv(s) && Enabled(s, e)
    ensures Inv(Step(s, e))
  {
    match e
    case RequestStarts(id) => RequestKeepsInv(s, id);
    case AckedSendStarts(id) => AckedSendKeepsInv(s, id);
    case DeliverFrame(id) =>
      if id != "" && id in s.pendingFutures {
        EntryClosed(s, id, Replied(id), Step(s, e), true);
      }
    case AckFrame(id) =>
      if id in s.pendingAcks {
        EntryClosed(s, id, Acknowledged, Step(s, e), false);
      }
    case ErrorFrame(id) =>
      if id in s.pendingFutures || id in s.pendingAcks {
        EntryClosed(s, id, Failed(BrokerError), Step(s, e), id in s.pendingFutures);
      }
    case TimeoutFrame(id) =>
      if id in s.pendingFutures {
        EntryClosed(s, id, Failed(BrokerTimeout), Step(s, e), true);
      }
    case WaitExpires(f) => ExpiryKeepsInv(s, f);
    case RequesterWakes(f) => WakeKeepsInv(s, f);
    case SenderWakes(f) => WakeKeepsInv(s, f);
    case ConnectionEnds => FailKeepsInv(s);
  }

  lemma FailingKeepsSettled(s: State, f: FutureId)
    requires f < |s.futures| && Done(s.futures[f])
    ensures f < |FailPending(s).futures| && FailPending(s).futures[f] == s.futures[f]
  {
    var first := OpenIn(s.futures, s.pendingFutures.Values);
    assert FailThese(s.futures, first)[f] == s.futures[f];
  }

  /** Settled futures stay as they are. */
  lemma StepKeepsSettled(s: State, e: Event, f: FutureId)
    requires Inv(s) && Enabled(s, e) && f < |s.futures| && Done(s.futures[f])
    ensures f < |Step(s, e).futures| && Step(s, e).futures[f] == s.futures[f]
  {
    match e
    case RequestStarts(_) =>
    case AckedSendStarts(_) =>
    case DeliverFrame(_) =>
    case AckFrame(_) =>
    case ErrorFrame(_) =>
    case TimeoutFrame(_) =>
    case WaitExpires(_) =>
    case RequesterWakes(_) =>
    case SenderWakes(_) =>
    case ConnectionEnds => FailingKeepsSettled(s, f);
  }

  lemma {:induction false} RunKeepsInv(s: State, es: seq<Event>)
    requires Inv(s) && EnabledRun(s, es)
    ensures Inv(Run(s, es))
    ensures |s.futures| <= |Run(s, es).futures|
    ensures forall f :: 0 <= f < |s.futures| && Done(s.futures[f]) ==> Run(s, es).futures[f] == s.futures[f]
    decreases |es|
  {
    if es != [] {
      StepKeepsInv(s, es[0]);
      forall f | 0 <= f < |s.futures| && Done(s.futures[f])
        ensures Step(s, es[0]).futures[f] == s.futures[f]
      {
        StepKeepsSettled(s, es[0], f);
      }
      RunKeepsInv(Step(s, es[0]), es[1..]);
    }
  }

  /** Whatever the order of frames, expiries and wake-ups: a future is settled at most once, and is open exactly as long
      as it has not been settled; what it was settled with is final. */
  lemma SettledAtMostOnce(es: seq<Event>, more: seq<Event>, f: FutureId)
    requires EnabledRun(INITIAL, es) && EnabledRun(Run(INITIAL, es), more) && f < |Run(INITIAL, es).futures|
    ensures var s, t := Run(INITIAL, es), Run(Run(INITIAL, es), more);
      && s.settlements[f] == (if Done(s.futures[f]) then 1 else 0)
      && f < |t.futures| && (Done(s.futures[f]) ==> t.futures[f] == s.futures[f] && t.settlements[f] == 1)
  {
    RunKeepsInv(INITIAL, es);
    RunKeepsInv(Run(INITIAL, es), more);
  }

  /** What a table entry can lead to: a future that is open, or one that has expired and whose caller is about to clean
      up. */
  predicate EntriesWait(table: map<MessageId, FutureId>, futures: seq<Future>) {
    forall id :: id in table ==> table[id] < |futures| && (futures[table[id]].Unsettled? || futures[table[id]].Cancelled?)
  }

  /** Without the entry of `id`, neither table leads to the future of `id`. */
  lemma EntryGone(table: map<MessageId, FutureId>, owner: seq<MessageId>, futures: seq<Future>, f: FutureId, value: Future)
    requires TableOk(table, owner) && EntriesWait(table, futures) && |futures| == |owner| && f < |futures|
    ensures EntriesWait(table - {owner[f]}, futures) && EntriesWait(table - {owner[f]}, futures[f := value])
    ensures owner[f] !in table ==> table - {owner[f]} == table
    ensures value.Cancelled? ==> EntriesWait(table, futures[f := value])
  {
  }

  lemma NewEntry(table: map<MessageId, FutureId>, futures: seq<Future>, id: MessageId)
    requires EntriesWait(table, futures)
    ensures EntriesWait(table, futures + [Unsettled]) && EntriesWait(table[id := |futures|], futures + [Unsettled])
  {
  }

  lemma RequestClosed(s: State, id: MessageId, value: Future)
    requires OwnMessages(s) && EntriesWait(s.pendingFutures, s.futures) && EntriesWait(s.pendingAcks, s.futures)
    requires id in s.pendingFutures ==> id !in s.pendingAcks
    ensures id in s.pendingFutures ==>
      var futures := SettleIfOpen(s, s.pendingFutures[id], value).futures;
      EntriesWait(s.pendingFutures - {id}, futures) && EntriesWait(s.pendingAcks, futures)
  {
    if id in s.pendingFutures {
      EntryGone(s.pendingFutures, s.owner, s.futures, s.pendingFutures[id], value);
      EntryGone(s.pendingAcks, s.owner, s.futures, s.pendingFutures[id], value);
      hide EntriesWait, OwnMessages;
    }
  }

  lemma SendClosed(s: State, id: MessageId, value: Future)
    requires OwnMessages(s) && EntriesWait(s.pendingFutures, s.futures) && EntriesWait(s.pendingAcks, s.futures)
    requires id in s.pendingAcks ==> id !in s.pendingFutures
    ensures id in s.pendingAcks ==>
      var futures := SettleIfOpen(s, s.pendingAcks[id], value).futures;
      EntriesWait(s.pendingAcks - {id}, futures) && EntriesWait(s.pendingFutures, futures)
  {
    if id in s.pendingAcks {
      EntryGone(s.pendingFutures, s.owner, s.futures, s.pendingAcks[id], value);
      EntryGone(s.pendingAcks, s.owner, s.futures, s.pendingAcks[id], value);
      hide EntriesWait, OwnMessages;
    }
  }

  lemma TablesStayApart(s: State, e: Event)
    requires OwnMessages(s) && Enabled(s, e) && forall id :: id in s.pendingFutures ==> id !in s.pendingAcks
    ensures forall id :: id in Step(s, e).pendingFutures ==> id !in Step(s, e).pendingAcks
  {
    hide FailThese, OpenIn;
  }

  lemma StepKeepsEntries(s: State, e: Event)
    requires OwnMessages(s) && Enabled(s, e)
    requires EntriesWait(s.pendingFutures, s.futures) && EntriesWait(s.pendingAcks, s.futures)
    requires forall id :: id in s.pendingFutures ==> id !in s.pendingAcks
    ensures var t := Step(s, e); EntriesWait(t.pendingFutures, t.futures) && EntriesWait(t.pendingAcks, t.futures)
  {
    match e
    case RequestStarts(id) =>
      NewEntry(s.pendingFutures, s.futures, id);
      NewEntry(s.pendingAcks, s.futures, id);
    case AckedSendStarts(id) =>
      NewEntry(s.pendingFutures, s.futures, id);
      NewEntry(s.pendingAcks, s.futures, id);
    case DeliverFrame(id) => RequestClosed(s, id, Replied(id));
    case AckFrame(id) => SendClosed(s, id, Acknowledged);
    case ErrorFrame(id) =>
      RequestClosed(s, id, Failed(BrokerError));
      SendClosed(s, id, Failed(BrokerError));
    case TimeoutFrame(id) => RequestClosed(s, id, Failed(BrokerTimeout));
    case WaitExpires(f) =>
      EntryGone(s.pendingFutures, s.owner, s.futures, f, Cancelled);
      EntryGone(s.pendingAcks, s.owner, s.futures, f, Cancelled);
    case RequesterWakes(f) => EntryGone(s.pendingFutures, s.owner, s.futures, f, Cancelled);
    case SenderWakes(f) => EntryGone(s.pendingAcks, s.owner, s.futures, f, Cancelled);
    case ConnectionEnds =>
  }

  lemma {:induction false} RunKeepsEntries(s: State, es: seq<Event>)
    requires Inv(s) && EnabledRun(s, es)
    requires EntriesWait(s.pendingFutures, s.futures) && EntriesWait(s.pendingAcks, s.futures)
    requires forall id :: id in s.pendingFutures ==> id !in s.pendingAcks
    ensures var t := Run(s, es); EntriesWait(t.pendingFutures, t.futures) && EntriesWait(t.pendingAcks, t.futures)
    decreases |es|
  {
    if es != [] {
      StepKeepsInv(s, es[0]);
      StepKeepsEntries(s, es[0]);
      TablesStayApart(s, es[0]);
      hide Step, EntriesWait;
      RunKeepsEntries(Step(s, es[0]), es[1..]);
    }
  }

  /** The tables never lead to a future that holds a result or an exception. */
  lemma TablesHoldNoResults(es: seq<Event>)
    requires EnabledRun(INITIAL, es)
    ensures var t := Run(INITIAL, es); EntriesWait(t.pendingFutures, t.futures) && EntriesWait(t.pendingAcks, t.futures)
  {
    RunKeepsEntries(INITIAL, es);
  }

  /** The caller of an expired future removes exactly its own entry, and settles nothing. */
  lemma WakingCleansUp(s: State, f: FutureId)
    requires Inv(s) && f < |s.futures| && s.futures[f].Cancelled?
    ensures var (t, u) := (Step(s, RequesterWakes(f)), Step(s, SenderWakes(f)));
      && s.owner[f] !in t.pendingFutures && t.(pendingFutures := s.pendingFutures) == s
      && s.owner[f] !in u.pendingAcks && u.(pendingAcks := s.pendingAcks) == s
      && (forall id :: id in s.pendingFutures && id != s.owner[f] ==>
            id in t.pendingFutures && t.pendingFutures[id] == s.pendingFutures[id])
      && (forall id :: id in s.pendingAcks && id != s.owner[f] ==>
            id in u.pendingAcks && u.pendingAcks[id] == s.pendingAcks[id])
  {
  }

  /** A caller only ever receives the reply to its own request. */
  lemma RepliesReachTheirRequest(es: seq<Event>, f: FutureId)
    requires EnabledRun(INITIAL, es) && f < |Run(INITIAL, es).futures|
    ensures var s := Run(INITIAL, es);
      |s.owner| == |s.futures| && (s.futures[f].Replied? ==> s.futures[f] == Replied(s.owner[f]))
  {
    RunKeepsInv(INITIAL, es);
  }

  /** When the connection ends, both tables are empty, and every future ever created has been settled exactly once. */
  lemma SettledExactlyOnceAtTheEnd(es: seq<Event>, f: FutureId)
    requires EnabledRun(INITIAL, es) && f < |Run(INITIAL, es).futures|
    ensures var t := FailPending(Run(INITIAL, es));
      && t.pendingFutures == map[] && t.pendingAcks == map[]
      && f < |t.futures| && Done(t.futures[f]) && t.settlements[f] == 1
  {
    RunKeepsInv(INITIAL, es);
    FailKeepsInv(Run(INITIAL, es));
  }

  /** The guard is needed: between an expiry and the caller's clean-up the table leads to a future that is already
      settled, and a reply may arrive just then; without the guard it would be settled twice. */
  lemma TableHoldsSettledFuture()
    ensures var es := [RequestStarts("r"), WaitExpires(0)];
      && EnabledRun(INITIAL, es)
      && Run(INITIAL, es).pendingFutures == map["r" := 0] && Run(INITIAL, es).futures == [Cancelled]
      && Settle(Run(INITIAL, es), 0, Replied("r")).settlements[0] == 2
  {
    var es := [RequestStarts("r"), WaitExpires(0)];
    var s1 := Step(INITIAL, es[0]);
    assert s1.futures == [Unsettled];
    var s2 := Step(s1, es[1]);
    assert s2.futures == [Cancelled];
    assert es[1..] == [WaitExpires(0)] && es[1..][1..] == [];
    assert Run(s1, es[1..]) == Run(s2, []);
  }
}

/** Which event settles a future, and how: the first one that concerns it. */
module ClientAnswers {
  import opened ClientModel
  import opened ClientProofs

  /** A future, the id of its frame, and whether it waits for a reply or for an acknowledgement. */
  datatype Watch = Watch(id: MessageId, isRequest: bool, future: FutureId)

  /** What an event says to a future that is still open; `Unsettled` if the event does not concern it. */
  function Word(w: Watch, e: Event): Future {
    match e
    case DeliverFrame(replyTo) => if w.isRequest && replyTo == w.id != "" then Replied(replyTo) else Unsettled
    case AckFrame(id) => if !w.isRequest && id == w.id then Acknowledged else Unsettled
    case ErrorFrame(id) => if id == w.id then Failed(BrokerError) else Unsettled
    case TimeoutFrame(id) => if w.isRequest && id == w.id then Failed(BrokerTimeout) else Unsettled
    case WaitExpires(f) => if f == w.future then Cancelled else Unsettled
    case ConnectionEnds => Failed(ConnectionClosed)
    case _ => Unsettled
  }

  /** The first word in a list of events. */
  function Verdict(w: Watch, es: seq<Event>): Future {
    if es == [] then Unsettled else if Done(Word(w, es[0])) then Word(w, es[0]) else Verdict(w, es[1..])
  }

  predicate IsStart(e: Event) {
    e.RequestStarts? || e.AckedSendStarts?
  }

  function Starts(es: seq<Event>): nat {
    if es == [] then 0 else (if IsStart(es[0]) then 1 else 0) + Starts(es[1..])
  }

  /** The future belongs to this watch, and its id is in no table of the other kind. */
  ghost predicate Watched(s: State, w: Watch) {
    && Inv(s) && w.future < |s.futures| && s.owner[w.future] == w.id
    && w.id !in if w.isRequest then s.pendingAcks else s.pendingFutures
  }

  /** An open future is where its own id leads in its own table, and no other id leads to it. */
  lemma OpenIsListed(s: State, w: Watch)
    requires Watched(s, w) && s.futures[w.future].Unsettled?
    ensures var own := if w.isRequest then s.pendingFutures else s.pendingAcks;
      w.id in own && own[w.id] == w.future
    ensures forall id :: id in s.pendingFutures && id != w.id ==> s.pendingFutures[id] != w.future
    ensures forall id :: id in s.pendingAcks && id != w.id ==> s.pendingAcks[id] != w.future
  {
    assert Findable(s, w.future);
  }

  lemma WordReaches(s: State, w: Watch, e: Event)
    requires Watched(s, w) && Enabled(s, e) && s.futures[w.future].Unsettled? && !e.ConnectionEnds?
    ensures w.future < |Step(s, e).futures| && Step(s, e).futures[w.future] == Word(w, e)
  {
    OpenIsListed(s, w);
    hide Inv, FailPending;
    match e
    case RequestStarts(_) =>
    case AckedSendStarts(_) =>
    case DeliverFrame(_) =>
    case AckFrame(_) =>
    case ErrorFrame(_) =>
    case TimeoutFrame(_) =>
    case WaitExpires(_) =>
    case RequesterWakes(_) =>
    case SenderWakes(_) =>
    case ConnectionEnds =>
  }

  lemma EndReaches(s: State, w: Watch)
    requires Watched(s, w) && s.futures[w.future].Unsettled?
    ensures w.future < |FailPending(s).futures| && FailPending(s).futures[w.future] == Failed(ConnectionClosed)
  {
    FailReachesAll(s);
    var first := OpenIn(s.futures, s.pendingFutures.Values);
    var between := FailThese(s.futures, first);
    var second := OpenIn(between, s.pendingAcks.Values);
    assert w.future in first + second;
    assert FailPending(s).futures == FailThese(between, second);
  }

  lemma StaysWatched(s: State, w: Watch, e: Event)
    requires Watched(s, w) && Enabled(s, e)
    ensures Watched(Step(s, e), w)
  {
    StepKeepsInv(s, e);
    hide Inv;
  }

  lemma {:induction false} VerdictReaches(s: State, w: Watch, es: seq<Event>)
    requires Watched(s, w) && EnabledRun(s, es)
    ensures w.future < |Run(s, es).futures|
    ensures Run(s, es).futures[w.future] == if Done(s.futures[w.future]) then s.futures[w.future] else Verdict(w, es)
    decreases |es|
  {
    if es != [] {
      StaysWatched(s, w, es[0]);
      if Done(s.futures[w.future]) {
        StepKeepsSettled(s, es[0], w.future);
      } else if es[0].ConnectionEnds? {
        EndReaches(s, w);
      } else {
        WordReaches(s, w, es[0]);
      }
      hide Watched, Step, Word;
      VerdictReaches(Step(s, es[0]), w, es[1..]);
    }
  }

  lemma {:induction false} FuturesCounted(s: State, es: seq<Event>)
    requires EnabledRun(s, es)
    ensures |Run(s, es).futures| == |s.futures| + Starts(es)
    decreases |es|
  {
    if es != [] {
      FuturesCounted(Step(s, es[0]), es[1..]);
    }
  }

  lemma StartWatches(s: State, start: Event)
    requires Inv(s) && Enabled(s, start) && IsStart(start)
    ensures var w := Watch(start.id, start.RequestStarts?, |s.futures|);
      Watched(Step(s, start), w) && Step(s, start).futures[w.future] == Unsettled
  {
    StepKeepsInv(s, start);
    hide Counted, OpenAreFindable;
  }

  /** In every run: each request and each acknowledged send creates one future, and the first event after that which
      concerns it decides it: a reply to its id, an acknowledgement of its id, an error or a timeout that names its id,
      its own expiry, or the end of the connection.  Nothing else settles it, and nothing later changes it. */
  lemma FirstWordDecides(before: seq<Event>, start: Event, after: seq<Event>)
    requires EnabledRun(INITIAL, before) && Enabled(Run(INITIAL, before), start) && IsStart(start)
    requires EnabledRun(Step(Run(INITIAL, before), start), after)
    ensures var t := Run(Step(Run(INITIAL, before), start), after);
      var f := Starts(before);
      && |t.futures| == f + 1 + Starts(after)
      && t.futures[f] == Verdict(Watch(start.id, start.RequestStarts?, f), after)
  {
    var s := Run(INITIAL, before);
    RunKeepsInv(INITIAL, before);
    FuturesCounted(INITIAL, before);
    FuturesCounted(Step(s, start), after);
    StartWatches(s, start);
    VerdictReaches(Step(s, start), Watch(start.id, start.RequestStarts?, |s.futures|), after);
  }

  ghost predicate FirstIs(w: Watch, es: seq<Event>, k: nat, value: Future) {
    k < |es| && Word(w, es[k]) == value && forall i :: 0 <= i < k ==> Word(w, es[i]) == Unsettled
  }

  lemma {:induction false} VerdictIsFirst(w: Watch, es: seq<Event>, value: Future)
    requires Done(value)
    ensures Verdict(w, es) == value <==> exists k: nat :: FirstIs(w, es, k, value)
    decreases |es|
  {
    if es == [] {
    } else if Done(Word(w, es[0])) {
      assert Word(w, es[0]) == value ==> FirstIs(w, es, 0, value);
    } else {
      VerdictIsFirst(w, es[1..], value);
      if k: nat :| FirstIs(w, es[1..], k, value) {
        assert forall i :: 0 < i < |es| ==> es[i] == es[1..][i - 1];
        assert FirstIs(w, es, k + 1, value);
      }
      if k: nat :| FirstIs(w, es, k, value) {
        assert k > 0 && forall i :: 0 <= i < |es| - 1 ==> es[1..][i] == es[i + 1];
        assert FirstIs(w, es[1..], k - 1, value);
      }
    }
  }

  /** So a future holds a value exactly if some event says so to it and none before that event concerned it. */
  lemma SettledByFirst(before: seq<Event>, start: Event, after: seq<Event>, value: Future)
    requires EnabledRun(INITIAL, before) && Enabled(Run(INITIAL, before), start) && IsStart(start)
    requires EnabledRun(Step(Run(INITIAL, before), start), after) && Done(value)
    ensures var (t, f) := (Run(Step(Run(INITIAL, before), start), after), Starts(before));
      && f < |t.futures|
      && (t.futures[f] == value <==> exists k: nat :: FirstIs(Watch(start.id, start.RequestStarts?, f), after, k, value))
  {
    FirstWordDecides(before, start, after);
    VerdictIsFirst(Watch(start.id, start.RequestStarts?, Starts(before)), after, value);
  }
}

module ClientService {
  import opened ClientModel

  class MessageBus {
    var futures: seq<Future>
    var owner: seq<MessageId>
    var pendingFutures: map<MessageId, FutureId>
    var pendingAcks: map<MessageId, FutureId>
    ghost var settlements: multiset<FutureId>

    ghost function View(): State
      reads this
    {
      State(futures, owner, pendingFutures, pendingAcks, settlements)
    }

    constructor ()
      ensures View() == INITIAL
    {
      futures, owner, pendingFutures, pendingAcks := [], [], map[], map[];
      settlements := multiset{};
    }

    /** `set_result` / `set_exception`: raises on a settled future, so the handlers must not get here with one. */
    method SetFuture(f: FutureId, value: Future)
      requires f < |futures| && futures[f].Unsettled?
      modifies this`futures, this`settlements
      ensures futures == old(futures)[f := value] && settlements == old(settlements) + multiset{f}
    {
      futures := futures[f := value];
      settlements := settlements + multiset{f};
    }

    method BeginRequest(id: MessageId)
      modifies this
      ensures View() == StartRequest(old(View()), id)
    {
      pendingFutures := pendingFutures[id := |futures|];
      futures, owner := futures + [Unsettled], owner + [id];
    }

    method BeginAckedSend(id: MessageId)
      modifies this
      ensures View() == StartAckedSend(old(View()), id)
    {
      pendingAcks := pendingAcks[id := |futures|];
      futures, owner := futures + [Unsettled], owner + [id];
    }

    /** The caller's `wait_for` runs out of time and cancels the future. */
    method ExpireWait(f: FutureId)
      requires f < |futures| && futures[f].Unsettled?
      modifies this`futures, this`settlements
      ensures View() == Step(old(View()), WaitExpires(f))
    {
      SetFuture(f, Cancelled);
    }

    /** `except TimeoutError` in `request`. */
    method ForgetRequest(f: FutureId)
      requires f < |futures| && f < |owner| && futures[f].Cancelled?
      modifies this`pendingFutures
      ensures View() == Step(old(View()), RequesterWakes(f))
    {
      pendingFutures := pendingFutures - {owner[f]};
    }

    /** `except TimeoutError` while waiting for an acknowledgement. */
    method ForgetSend(f: FutureId)
      requires f < |futures| && f < |owner| && futures[f].Cancelled?
      modifies this`pendingAcks
      ensures View() == Step(old(View()), SenderWakes(f))
    {
      pendingAcks := pendingAcks - {owner[f]};
    }

    method DispatchDeliver(replyTo: MessageId) returns (matched: bool)
      modifies this`futures, this`settlements, this`pendingFutures
      ensures View() == OnDeliver(old(View()), replyTo)
      ensures matched <==> replyTo != "" && replyTo in old(pendingFutures)
      ensures matched && old(pendingFutures)[replyTo] < |futures| && old(futures)[old(pendingFutures)[replyTo]].Unsettled? ==>
        futures[old(pendingFutures)[replyTo]] == Replied(replyTo)
    {
      matched := replyTo != "" && replyTo in pendingFutures;
      if matched {
        var f := pendingFutures[replyTo];
        pendingFutures := pendingFutures - {replyTo};
        if f < |futures| && !Done(futures[f]) {
          SetFuture(f, Replied(replyTo));
        }
      }
    }

    method DispatchAck(id: MessageId)
      modifies this`futures, this`settlements, this`pendingAcks
      ensures View() == OnAck(old(View()), id)
    {
      if id in pendingAcks {
        var f := pendingAcks[id];
        pendingAcks := pendingAcks - {id};
        if f < |futures| && !Done(futures[f]) {
          SetFuture(f, Acknowledged);
        }
      }
    }

    method DispatchError(id: MessageId)
      modifies this`futures, this`settlements, this`pendingFutures, this`pendingAcks
      ensures View() == OnError(old(View()), id)
    {
      if id in pendingFutures {
        var f := pendingFutures[id];
        pendingFutures := pendingFutures - {id};
        if f < |futures| && !Done(futures[f]) {
          SetFuture(f, Failed(BrokerError));
        }
      } else if id in pendingAcks {
        var f := pendingAcks[id];
        pendingAcks := pendingAcks - {id};
        if f < |futures| && !Done(futures[f]) {
          SetFuture(f, Failed(BrokerError));
        }
      }
    }

    method DispatchTimeout(id: MessageId)
      modifies this`futures, this`settlements, this`pendingFutures
      ensures View() == OnTimeout(old(View()), id)
    {
      if id in pendingFutures {
        var f := pendingFutures[id];
        pendingFutures := pendingFutures - {id};
        if f < |futures| && !Done(futures[f]) {
          SetFuture(f, Failed(BrokerTimeout));
        }
      }
    }

    /** The loop over the futures of one table. */
    method FailAll(table: set<FutureId>)
      modifies this`futures, this`settlements
      ensures futures == FailThese(old(futures), OpenIn(old(futures), table))
      ensures settlements == old(settlements) + multiset(OpenIn(old(futures), table))
    {
      var rest := table;
      ghost var failed: set<FutureId> := {};
      while rest != {}
        invariant rest <= table && failed == OpenIn(old(futures), table - rest)
        invariant futures == FailThese(old(futures), failed)
        invariant settlements == old(settlements) + multiset(failed)
        decreases |rest|
      {
        var f :| f in rest;
        assert table - (rest - {f}) == (table - rest) + {f};
        assert f !in failed;
        if f < |futures| && !Done(futures[f]) {
          SetFuture(f, Failed(ConnectionClosed));
          failed := failed + {f};
        }
        rest := rest - {f};
      }
      assert table - rest == table;
    }

    method FailPendingFutures()
      modifies this`futures, this`settlements, this`pendingFutures, this`pendingAcks
      ensures View() == FailPending(old(View()))
    {
      FailAll(pendingFutures.Values);
      pendingFutures := map[];
      FailAll(pendingAcks.Values);
      pendingAcks := map[];
    }
  }
}
