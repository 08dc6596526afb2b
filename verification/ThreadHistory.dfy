/** What the prompt builder remembers of each conversation. */
module ThreadHistory {
  datatype Entry = FromUser(text: string) | FromAssistant(text: string)

  /** A dictionary that reads as empty where nothing is stored. */
  type History = map<string, seq<Entry>>

  function Of(h: History, thread: string): seq<Entry> {
    if thread in h then h[thread] else []
  }

  /** A slice with only a start, which counts from the end if it is negative. */
  function SliceFrom(s: seq<Entry>, start: int): seq<Entry> {
    if start < -|s| then s
    else if start < 0 then s[|s| + start..]
    else if start <= |s| then s[start..]
    else []
  }

  function Capped(cap: int, s: seq<Entry>): seq<Entry> {
    if |s| > cap then SliceFrom(s, -cap) else s
  }

  /** The history that a prompt for this message contains. */
  function Snapshot(cap: int, h: History, thread: string, text: string): seq<Entry> {
    Capped(cap, Of(h, thread) + [FromUser(text)])
  }

  function Commit(cap: int, h: History, thread: string, text: string, reply: string): History {
    h[thread := Capped(cap, Snapshot(cap, h, thread, text) + [FromAssistant(reply)])]
  }

  datatype Turn = Turn(thread: string, text: string, reply: string)

  /** What is stored after these turns were committed in this order. */
  function Replay(cap: int, turns: seq<Turn>): History {
    if turns == [] then map[]
    else
      var last := turns[|turns| - 1];
      Commit(cap, Replay(cap, turns[..|turns| - 1]), last.thread, last.text, last.reply)
  }

  // ---- the reference: an unbounded log of each thread --------------------------------------------

  function Log(turns: seq<Turn>, thread: string): seq<Entry> {
    if turns == [] then []
    else
      var last := turns[|turns| - 1];
      Log(turns[..|turns| - 1], thread)
      + if last.thread == thread then [FromUser(last.text), FromAssistant(last.reply)] else []
  }

  function Last(n: nat, s: seq<Entry>): seq<Entry> {
    if |s| <= n then s else s[|s| - n..]
  }

  /** Forgetting early is the same as forgetting late. */
  lemma LastOfLast(n: nat, s: seq<Entry>, more: seq<Entry>)
    ensures Last(n, Last(n, s) + more) == Last(n, s + more)
  {
    if |s| > n {
      var all, kept := s + more, Last(n, s) + more;
      assert kept == all[|s| - n..];
    }
  }

  lemma CappedIsLast(cap: int, s: seq<Entry>)
    requires cap >= 1
    ensures Capped(cap, s) == Last(cap, s)
  {
  }

  /** One commit, against a log that ends in what is stored. */
  lemma CommitAppends(cap: int, h: History, turn: Turn, log: seq<Entry>)
    requires cap >= 1 && Of(h, turn.thread) == Last(cap, log)
    ensures Snapshot(cap, h, turn.thread, turn.text) == Last(cap, log + [FromUser(turn.text)])
    ensures Of(Commit(cap, h, turn.thread, turn.text, turn.reply), turn.thread)
            == Last(cap, log + [FromUser(turn.text), FromAssistant(turn.reply)])
  {
    var user, reply := [FromUser(turn.text)], [FromAssistant(turn.reply)];
    LastOfLast(cap, log, user);
    LastOfLast(cap, log + user, reply);
    CappedIsLast(cap, Last(cap, log) + user);
    CappedIsLast(cap, Last(cap, log + user) + reply);
    hide Capped, Last;
    assert (log + user) + reply == log + [FromUser(turn.text), FromAssistant(turn.reply)];
  }

  /** With a cap of at least 1, each thread stores the end of its own log, and nothing of other threads. */
  lemma {:induction false} StoredIsRecent(cap: int, turns: seq<Turn>, thread: string)
    requires cap >= 1
    ensures Of(Replay(cap, turns), thread) == Last(cap, Log(turns, thread))
  {
    if turns != [] {
      var last, before := turns[|turns| - 1], turns[..|turns| - 1];
      StoredIsRecent(cap, before, thread);
      var h := Replay(cap, before);
      assert Replay(cap, turns) == Commit(cap, h, last.thread, last.text, last.reply);
      if last.thread == thread {
        assert Log(turns, thread) == Log(before, thread) + [FromUser(last.text), FromAssistant(last.reply)];
        CommitAppends(cap, h, last, Log(before, thread));
      } else {
        assert Log(turns, thread) == Log(before, thread);
      }
    }
  }

  /** The prompt of a new message sees the end of the log and the message. */
  lemma SnapshotIsRecent(cap: int, turns: seq<Turn>, thread: string, text: string)
    requires cap >= 1
    ensures Snapshot(cap, Replay(cap, turns), thread, text) == Last(cap, Log(turns, thread) + [FromUser(text)])
  {
    StoredIsRecent(cap, turns, thread);
    LastOfLast(cap, Log(turns, thread), [FromUser(text)]);
    CappedIsLast(cap, Last(cap, Log(turns, thread)) + [FromUser(text)]);
    hide Capped, Last, Log, Replay;
  }

  /** A cap of 0 slices from -0, the beginning: nothing is ever forgotten. */
  lemma {:induction false} ZeroKeepsAll(turns: seq<Turn>, thread: string)
    ensures Of(Replay(0, turns), thread) == Log(turns, thread)
  {
    if turns != [] {
      ZeroKeepsAll(turns[..|turns| - 1], thread);
    }
  }

  /** One turn under a cap of 0: both of its messages stay. */
  lemma ZeroKeepsFirstTurn()
    ensures Of(Replay(0, [Turn("t", "hello", "hi")]), "t") == [FromUser("hello"), FromAssistant("hi")]
  {
    var turns := [Turn("t", "hello", "hi")];
    assert turns[..0] == [];
    ZeroKeepsAll(turns, "t");
  }

  /** A negative cap drops from the front, and stores nothing. */
  lemma {:induction false} NegativeKeepsNothing(cap: int, turns: seq<Turn>, thread: string)
    requires cap < 0
    ensures Of(Replay(cap, turns), thread) == []
  {
    if turns != [] {
      NegativeKeepsNothing(cap, turns[..|turns| - 1], thread);
    }
  }

  function Limit(cap: int): nat {
    if cap < 0 then 0 else cap
  }

  /** The promise of the cap, for all turns and threads: kept by every cap except 0. */
  lemma CapExact(cap: int)
    ensures (forall turns, thread :: Of(Replay(cap, turns), thread) == Last(Limit(cap), Log(turns, thread))) <==> cap != 0
  {
    if cap == 0 {
      var turns := [Turn("t", "hello", "hi")];
      ZeroKeepsFirstTurn();
      assert Of(Replay(0, turns), "t") != Last(Limit(0), Log(turns, "t"));
    } else {
      forall turns, thread
        ensures Of(Replay(cap, turns), thread) == Last(Limit(cap), Log(turns, thread))
      {
        if cap > 0 {
          StoredIsRecent(cap, turns, thread);
        } else {
          NegativeKeepsNothing(cap, turns, thread);
        }
      }
    }
  }

  /** Reading a thread creates its empty entry, which shows nowhere. */
  function Touch(h: History, thread: string): History {
    if thread in h then h else h[thread := []]
  }

  class LayeredPromptBuilder {
    const maxHistory: int
    var threadHistory: History

    constructor (maxHistory: int)
      ensures this.maxHistory == maxHistory && threadHistory == map[]
    {
      this.maxHistory := maxHistory;
      threadHistory := map[];
    }

    method HistoryWithUserMessage(thread: string, text: string) returns (hist: seq<Entry>)
      modifies this
      ensures hist == Snapshot(maxHistory, old(threadHistory), thread, text)
      ensures forall t :: Of(threadHistory, t) == Of(old(threadHistory), t)
      ensures threadHistory == Touch(old(threadHistory), thread)
    {
      if thread !in threadHistory {
        threadHistory := threadHistory[thread := []];
      }
      hist := threadHistory[thread] + [FromUser(text)];
      if |hist| > maxHistory {
        hist := SliceFrom(hist, -maxHistory);
      }
    }

    method CommitTurn(thread: string, text: string, reply: string)
      modifies this
      ensures threadHistory == Commit(maxHistory, old(threadHistory), thread, text, reply)
    {
      var hist := HistoryWithUserMessage(thread, text);
      hist := hist + [FromAssistant(reply)];
      if |hist| > maxHistory {
        hist := SliceFrom(hist, -maxHistory);
      }
      threadHistory := threadHistory[thread := hist];
    }
  }
}
