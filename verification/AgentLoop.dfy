/** The multi-turn loop: compact, ask the model, run its tool calls, repeat. */
module AgentLoop {
  import opened Wrappers
  import opened Transcript
  import T = Truncation
  import C = Compaction
  import B = ToolBatch
  import K = Continuation

  datatype Config = Config(maxToolRounds: nat, maxContinuationRetries: nat, compaction: C.Config)

  /** Everything outside the loop: the model (for answers and for summaries), the tools, the order in
      which the concurrent calls of a batch complete, and the approval gate for write calls. */
  datatype Env = Env(
    complete: K.Backend,
    summarize: (nat, seq<Message>) -> Option<string>,
    registry: B.Registry,
    execute: nat -> B.Execution,
    order: (nat, seq<ToolCall>) -> seq<nat>,
    approved: ToolCall -> bool)

  datatype Outcome =
    | Finished(content: string, toolCallsMade: nat, rounds: nat, hitSafetyLimit: bool, working: seq<Message>)
    | AwaitsApproval(calls: seq<ToolCall>, working: seq<Message>, assistant: Message)
    | Raised

  /** What a run did: requests sent for answers and the numbers of these calls to the backend, requests for summaries,
      the tails kept by compactions, the tool calls executed and the messages that came back (batch after batch), and
      how many batches. */
  datatype Log = Log(sent: seq<seq<Message>>, numbers: seq<nat>, summaries: nat, tails: seq<seq<Message>>,
                     executed: seq<ToolCall>, results: seq<Message>, batches: nat)

  const EMPTY_LOG := Log([], [], 0, [], [], [], 0)

  function Calls(log: Log): nat {
    |log.sent| + log.summaries
  }

  function Numbers(first: nat, count: nat): (numbers: seq<nat>)
    ensures |numbers| == count
  {
    seq(count, i requires 0 <= i => first + i)
  }

  /** These requests were sent next, in this order. */
  function Sent(log: Log, lists: seq<seq<Message>>): Log {
    log.(sent := log.sent + lists, numbers := log.numbers + Numbers(Calls(log), |lists|))
  }

  const LIMIT_TEXT :=
    "I've been working on your request but reached the maximum number of tool calls. "
    + "Here's what I've gathered so far — please ask a follow-up question if you need more."

  /** A registered tool that is not read-only. */
  predicate IsWrite(registry: B.Registry, call: ToolCall) {
    call.name in registry && !registry[call.name].isReadOnly
  }

  function WriteCalls(registry: B.Registry, calls: seq<ToolCall>): seq<ToolCall> {
    if calls == [] then []
    else (if IsWrite(registry, calls[0]) then [calls[0]] else []) + WriteCalls(registry, calls[1..])
  }

  predicate Blocked(env: Env, calls: seq<ToolCall>) {
    exists c :: c in WriteCalls(env.registry, calls) && !env.approved(c)
  }

  /** The messages after both tiers of compaction; none if the summary call raised. */
  datatype Prepared = Prepared(messages: Option<seq<Message>>, log: Log)

  function Prepare(cfg: Config, env: Env, ms: seq<Message>, log: Log): Prepared {
    var cut := T.TruncateAll(cfg.compaction.microLimit, ms);
    if !C.ShouldCompact(cfg.compaction, cut) || !C.Compressible(cfg.compaction, cut) then Prepared(Some(cut), log)
    else
      match env.summarize(Calls(log), C.Summarized(cfg.compaction, cut))
      case None => Prepared(None, log.(summaries := log.summaries + 1))
      case Some(summary) =>
        Prepared(Some(C.Compacted(cfg.compaction, cut, summary)),
                 log.(summaries := log.summaries + 1, tails := log.tails + [C.Kept(cfg.compaction, cut)]))
  }

  function Conclude(cfg: Config, env: Env, ms: seq<Message>, r: K.Response, round: nat, made: nat, log: Log): (Outcome, Log) {
    var end := K.Completed(env.complete, ms, r, cfg.maxContinuationRetries, Calls(log));
    (if end.text.None? then Raised else Finished(end.text.value, made, round + 1, false, ms),
     Sent(log, end.sent))
  }

  function BatchOf(env: Env, calls: seq<ToolCall>, batch: nat): seq<Message> {
    B.BatchResults(calls, env.execute(batch), B.Trace(env.registry, calls, env.order(batch, calls)))
  }

  /** How a round ends: with the run's outcome, or with the messages and the count for the next round. */
  datatype Turn = Ends(outcome: Outcome, log: Log) | Goes(messages: seq<Message>, made: nat, log: Log)

  function Answer(cfg: Config, env: Env, ready: seq<Message>, r: K.Response, round: nat, made: nat, asked: Log): Turn {
    if r.calls == [] then
      var end := Conclude(cfg, env, ready, r, round, made, asked);
      Ends(end.0, end.1)
    else if Blocked(env, r.calls) then Ends(AwaitsApproval(r.calls, ready, Assistant(r.content, r.calls)), asked)
    else
      var results := BatchOf(env, r.calls, asked.batches);
      Goes(ready + [Assistant(r.content, r.calls)] + results, made + |r.calls|,
           asked.(executed := asked.executed + r.calls, results := asked.results + results, batches := asked.batches + 1))
  }

  function Ask(cfg: Config, env: Env, ready: seq<Message>, round: nat, made: nat, log: Log): Turn {
    var asked := Sent(log, [ready]);
    match env.complete(Calls(log), ready)
    case Raised => Ends(Raised, asked)
    case Answered(r) => Answer(cfg, env, ready, r, round, made, asked)
  }

  function Round(cfg: Config, env: Env, ms: seq<Message>, round: nat, made: nat, log: Log): Turn {
    var p := Prepare(cfg, env, ms, log);
    if p.messages.None? then Ends(Raised, p.log) else Ask(cfg, env, p.messages.value, round, made, p.log)
  }

  /** The rounds from `round` on. */
  function Rounds(cfg: Config, env: Env, ms: seq<Message>, round: nat, made: nat, log: Log): (Outcome, Log)
    decreases cfg.maxToolRounds - round
  {
    if round >= cfg.maxToolRounds then (Finished(LIMIT_TEXT, made, cfg.maxToolRounds, true, ms), log)
    else
      match Round(cfg, env, ms, round, made, log)
      case Ends(outcome, log') => (outcome, log')
      case Goes(ms', made', log') => Rounds(cfg, env, ms', round + 1, made', log')
  }

  // ---- the loop itself ---------------------------------------------------------------------------

  ghost predicate Scheduler(env: Env) {
    forall batch: nat, calls :: B.CompletionOrder(env.order(batch, calls), B.SafePositions(env.registry, calls))
  }

  lemma {:induction false} WriteCallsSnoc(registry: B.Registry, calls: seq<ToolCall>, last: ToolCall)
    ensures WriteCalls(registry, calls + [last])
         == WriteCalls(registry, calls) + (if IsWrite(registry, last) then [last] else [])
    decreases |calls|
  {
    var all := calls + [last];
    if calls == [] {
      assert all[1..] == [];
    } else {
      assert all[0] == calls[0] && all[1..] == calls[1..] + [last];
      WriteCallsSnoc(registry, calls[1..], last);
    }
  }

  lemma {:induction false} WriteCallsExact(registry: B.Registry, calls: seq<ToolCall>)
    ensures forall c :: c in WriteCalls(registry, calls) <==> c in calls && IsWrite(registry, c)
    decreases |calls|
  {
    if calls != [] {
      WriteCallsExact(registry, calls[1..]);
      assert forall c :: c in calls <==> c == calls[0] || c in calls[1..];
    }
  }

  method GetWriteToolCalls(registry: B.Registry, calls: seq<ToolCall>) returns (writes: seq<ToolCall>)
    ensures writes == WriteCalls(registry, calls)
    ensures forall c :: c in writes <==> c in calls && IsWrite(registry, c)
  {
    writes := [];
    for i := 0 to |calls|
      invariant writes == WriteCalls(registry, calls[..i])
    {
      WriteCallsSnoc(registry, calls[..i], calls[i]);
      assert calls[..i + 1] == calls[..i] + [calls[i]];
      if calls[i].name in registry && !registry[calls[i].name].isReadOnly {
        writes := writes + [calls[i]];
      }
    }
    assert calls[..|calls|] == calls;
    WriteCallsExact(registry, calls);
  }

  /** Stops at the first denial. */
  method NeedsWriteApproval(env: Env, writes: seq<ToolCall>) returns (needed: bool)
    ensures needed <==> exists c :: c in writes && !env.approved(c)
  {
    for i := 0 to |writes|
      invariant forall c :: c in writes[..i] ==> env.approved(c)
    {
      if !env.approved(writes[i]) {
        return true;
      }
      assert writes[..i + 1] == writes[..i] + [writes[i]];
    }
    assert writes[..|writes|] == writes;
    return false;
  }

  method PrepareMessages(cfg: Config, env: Env, messages: seq<Message>, log: Log) returns (p: Prepared)
    ensures p == Prepare(cfg, env, messages, log)
  {
    var cut := T.TruncateToolResults(cfg.compaction.microLimit, messages);
    if C.ShouldCompact(cfg.compaction, cut) && C.Compressible(cfg.compaction, cut) {
      match env.summarize(Calls(log), C.Summarized(cfg.compaction, cut)) {
        case None =>
          return Prepared(None, log.(summaries := log.summaries + 1));
        case Some(summary) =>
          return Prepared(Some(C.Compacted(cfg.compaction, cut, summary)),
                          log.(summaries := log.summaries + 1, tails := log.tails + [C.Kept(cfg.compaction, cut)]));
      }
    }
    return Prepared(Some(cut), log);
  }

  /** What the loop does with the model's answer. */
  method HandleAnswer(cfg: Config, env: Env, messages: seq<Message>, r: K.Response, round: nat, made: nat, asked: Log)
    returns (turn: Turn)
    requires Scheduler(env)
    ensures turn == Answer(cfg, env, messages, r, round, made, asked)
  {
    if r.calls == [] {
      if r.finish == "length" {
        var more := K.ContinueTruncated(env.complete, cfg.maxContinuationRetries, messages, r, Calls(asked));
        var log := Sent(asked, more.sent);
        return if more.text.None? then Ends(Raised, log)
               else Ends(Finished(more.text.value, made, round + 1, false, messages), log);
      }
      return Ends(Finished(K.RepairResponse(r).content, made, round + 1, false, messages), asked);
    }
    var writes := GetWriteToolCalls(env.registry, r.calls);
    var blocked := NeedsWriteApproval(env, writes);
    if blocked {
      return Ends(AwaitsApproval(r.calls, messages, Assistant(r.content, r.calls)), asked);
    }
    var working := messages + [Assistant(r.content, r.calls)];
    var results := B.ExecuteToolCalls(env.registry, r.calls, env.execute(asked.batches), env.order(asked.batches, r.calls));
    working := working + results;
    return Goes(working, made + |r.calls|,
                asked.(executed := asked.executed + r.calls, results := asked.results + results, batches := asked.batches + 1));
  }

  /** Returns from the loop become `Ends`, which `Run` passes on. */
  method RunRound(cfg: Config, env: Env, messages: seq<Message>, round: nat, made: nat, before: Log) returns (turn: Turn)
    requires Scheduler(env)
    ensures turn == Round(cfg, env, messages, round, made, before)
  {
    var p := PrepareMessages(cfg, env, messages, before);
    if p.messages.None? {
      return Ends(Raised, p.log);
    }
    var working, log := p.messages.value, p.log;
    var n := Calls(log);
    log := Sent(log, [working]);
    match env.complete(n, working) {
      case Raised => turn := Ends(Raised, log);
      case Answered(r) => turn := HandleAnswer(cfg, env, working, r, round, made, log);
    }
  }

  method Run(cfg: Config, env: Env, messages: seq<Message>) returns (outcome: Outcome, log: Log)
    requires Scheduler(env)
    ensures (outcome, log) == Rounds(cfg, env, messages, 0, 0, EMPTY_LOG)
  {
    var working, made: nat := messages, 0;
    log := EMPTY_LOG;
    for round := 0 to cfg.maxToolRounds
      invariant Rounds(cfg, env, working, round, made, log) == Rounds(cfg, env, messages, 0, 0, EMPTY_LOG)
    {
      var turn := RunRound(cfg, env, working, round, made, log);
      log := turn.log;
      if turn.Ends? {
        return turn.outcome, log;
      }
      working, made := turn.messages, turn.made;
    }
    outcome := Finished(LIMIT_TEXT, made, cfg.maxToolRounds, true, working);
  }

  // ---- bounds ------------------------------------------------------------------------------------

  lemma {:induction false} ContinuationBounded(backend: K.Backend, working: seq<Message>, text: string, retries: nat, n: nat)
    ensures |K.ContinueFrom(backend, working, text, retries, n).sent| <= retries
    decreases retries
  {
    if retries > 0 {
      var ask := working + [User(K.PROMPT)];
      match backend(n, ask)
      case Raised =>
      case Answered(r) =>
        ContinuationBounded(backend, ask + [Assistant(r.content, [])], text + r.content, retries - 1, n + 1);
    }
  }

  predicate AllTools(ms: seq<Message>) {
    forall i :: 0 <= i < |ms| ==> ms[i].Tool?
  }

  lemma BatchIsTools(env: Env, calls: seq<ToolCall>, batch: nat)
    ensures AllTools(BatchOf(env, calls, batch)) && |BatchOf(env, calls, batch)| == |calls|
  {
    B.BatchAnswers(calls, env.execute(batch), B.Trace(env.registry, calls, env.order(batch, calls)));
  }

  /** One round costs at most a summary and a completion, and continuations only if it is the last; and it counts
      each tool message it appends. */
  lemma RoundBounded(cfg: Config, env: Env, ms: seq<Message>, round: nat, made: nat, log: Log)
    requires made == |log.results| && AllTools(log.results)
    ensures var turn := Round(cfg, env, ms, round, made, log);
      && AllTools(turn.log.results)
      && (turn.Goes? ==> Calls(turn.log) <= Calls(log) + 2 && turn.made == |turn.log.results|)
      && (turn.Ends? ==> Calls(turn.log) <= Calls(log) + 2 + cfg.maxContinuationRetries)
      && (turn.Ends? && turn.outcome.Finished? ==>
            turn.outcome.toolCallsMade == |turn.log.results| && turn.outcome.rounds == round + 1)
  {
    var p := Prepare(cfg, env, ms, log);
    if p.messages.Some? {
      var ready := p.messages.value;
      var asked := Sent(p.log, [ready]);
      match env.complete(Calls(p.log), ready)
      case Raised =>
      case Answered(r) =>
        ContinuationBounded(env.complete, ready + [Assistant(r.content, [])], r.content,
                            cfg.maxContinuationRetries, Calls(asked));
        BatchIsTools(env, r.calls, asked.batches);
    }
  }

  /** Honest about the tool results it produced, and within these bounds. */
  predicate Honest(outcome: Outcome, log: Log, maxRounds: nat) {
    && AllTools(log.results)
    && (outcome.Finished? ==> outcome.toolCallsMade == |log.results| && outcome.rounds <= maxRounds)
  }

  /** The number of tool calls reported is the number of tool messages appended, however many rounds are left. */
  lemma {:induction false} RoundsBounded(cfg: Config, env: Env, ms: seq<Message>, round: nat, made: nat, log: Log)
    requires round <= cfg.maxToolRounds && made == |log.results| && AllTools(log.results)
    ensures var end := Rounds(cfg, env, ms, round, made, log);
      && Calls(end.1) <= Calls(log) + 2 * (cfg.maxToolRounds - round) + cfg.maxContinuationRetries
      && Honest(end.0, end.1, cfg.maxToolRounds)
    decreases cfg.maxToolRounds - round
  {
    hide Prepare, Ask;
    if round < cfg.maxToolRounds {
      RoundBounded(cfg, env, ms, round, made, log);
      match Round(cfg, env, ms, round, made, log)
      case Ends(outcome, log') =>
      case Goes(ms', made', log') => RoundsBounded(cfg, env, ms', round + 1, made', log');
    }
  }

  /** A run always ends, within this many calls to the backend; and `tool_calls_made` is the number of tool results
      produced. */
  lemma RunBounded(cfg: Config, env: Env, messages: seq<Message>)
    ensures var (outcome, log) := Rounds(cfg, env, messages, 0, 0, EMPTY_LOG);
      && Calls(log) <= 2 * cfg.maxToolRounds + cfg.maxContinuationRetries
      && (outcome.Finished? ==> outcome.toolCallsMade == |log.results|)
      && (forall m :: m in log.results ==> m.Tool?)
  {
    hide Rounds;
    RoundsBounded(cfg, env, messages, 0, 0, EMPTY_LOG);
  }

  // ---- the tool-calling protocol -----------------------------------------------------------------

  predicate AllWellFormed(lists: seq<seq<Message>>) {
    forall i :: 0 <= i < |lists| ==> WellFormed(lists[i])
  }

  predicate AllClean(tails: seq<seq<Message>>) {
    forall i :: 0 <= i < |tails| ==> C.CleanCut(tails[i])
  }

  /** A later log extends an earlier one. */
  predicate Extends(later: Log, earlier: Log) {
    && earlier.sent <= later.sent && earlier.numbers <= later.numbers
    && earlier.tails <= later.tails && earlier.executed <= later.executed
  }

  lemma RoundExtends(cfg: Config, env: Env, ms: seq<Message>, round: nat, made: nat, log: Log)
    ensures Extends(Round(cfg, env, ms, round, made, log).log, log)
  {
  }

  lemma ExtendsTransitive(a: Log, b: Log, c: Log)
    requires Extends(a, b) && Extends(b, c)
    ensures Extends(a, c)
  {
  }

  lemma {:induction false} RoundsExtend(cfg: Config, env: Env, ms: seq<Message>, round: nat, made: nat, log: Log)
    ensures Extends(Rounds(cfg, env, ms, round, made, log).1, log)
    decreases cfg.maxToolRounds - round
  {
    if round < cfg.maxToolRounds {
      hide Round;
      RoundExtends(cfg, env, ms, round, made, log);
      var turn := Round(cfg, env, ms, round, made, log);
      if turn.Goes? {
        RoundsExtend(cfg, env, turn.messages, round + 1, turn.made, turn.log);
        ExtendsTransitive(Rounds(cfg, env, ms, round, made, log).1, turn.log, log);
      }
    }
  }

  /** The messages that a run, or its pause, hands on. */
  function HandedOn(outcome: Outcome): seq<Message> {
    if outcome.Raised? then [] else outcome.working
  }

  /** A compaction either makes a clean cut and keeps the protocol, or leaves a dirty tail in the log. */
  lemma PrepareExact(cfg: Config, env: Env, ms: seq<Message>, log: Log)
    requires WellFormed(ms) && AllClean(log.tails)
    ensures var p := Prepare(cfg, env, ms, log);
      && log.tails <= p.log.tails && p.log.sent == log.sent
      && (p.messages.Some? ==> (WellFormed(p.messages.value) <==> AllClean(p.log.tails)))
      && (p.messages.None? ==> p.log.tails == log.tails)
  {
    var cut := T.TruncateAll(cfg.compaction.microLimit, ms);
    T.TruncationKeepsProtocol(cfg.compaction.microLimit, ms);
    if C.ShouldCompact(cfg.compaction, cut) && C.Compressible(cfg.compaction, cut) {
      match env.summarize(Calls(log), C.Summarized(cfg.compaction, cut))
      case None =>
      case Some(summary) =>
        C.CompactionExact(cfg.compaction, cut, summary);
        var tails := log.tails + [C.Kept(cfg.compaction, cut)];
        assert tails[|log.tails|] == C.Kept(cfg.compaction, cut);
    }
  }

  lemma AppendWellFormed(lists: seq<seq<Message>>, more: seq<seq<Message>>)
    ensures AllWellFormed(lists + more) <==> AllWellFormed(lists) && AllWellFormed(more)
  {
    var all := lists + more;
    assert forall i :: 0 <= i < |lists| ==> all[i] == lists[i];
    assert forall i :: 0 <= i < |more| ==> all[|lists| + i] == more[i];
  }

  lemma DirtyStaysDirty(earlier: Log, later: Log)
    requires Extends(later, earlier)
    ensures AllWellFormed(later.sent) ==> AllWellFormed(earlier.sent)
    ensures AllClean(later.tails) ==> AllClean(earlier.tails)
  {
    assert later.sent == earlier.sent + later.sent[|earlier.sent|..];
    assert forall i :: 0 <= i < |earlier.tails| ==> later.tails[i] == earlier.tails[i];
    AppendWellFormed(earlier.sent, later.sent[|earlier.sent|..]);
  }

  predicate Protocol(log: Log) {
    AllWellFormed(log.sent) <==> AllClean(log.tails)
  }

  /** A final answer, continued or not, adds only well-formed requests. */
  lemma ConcludeKeepsProtocol(cfg: Config, env: Env, ready: seq<Message>, r: K.Response, round: nat, made: nat, asked: Log)
    requires WellFormed(ready) && AllWellFormed(asked.sent)
    ensures var end := Conclude(cfg, env, ready, r, round, made, asked);
      end.1.tails == asked.tails && AllWellFormed(end.1.sent) && WellFormed(HandedOn(end.0))
  {
    var working := ready + [Assistant(r.content, [])];
    PlainWellFormed(Assistant(r.content, []));
    WellFormedConcat(ready, [Assistant(r.content, [])]);
    K.ContinuationWellFormed(env.complete, working, r.content, cfg.maxContinuationRetries, Calls(asked));
    AppendWellFormed(asked.sent, K.Completed(env.complete, ready, r, cfg.maxContinuationRetries, Calls(asked)).sent);
  }

  lemma ExchangeAfter(working: seq<Message>, assistant: Message, results: seq<Message>)
    requires WellFormed(working) && assistant.Assistant? && Answers(assistant.calls, results)
    ensures WellFormed(working + [assistant] + results)
  {
    ExchangeWellFormed(assistant.content, assistant.calls, results);
    WellFormedConcat(working, [assistant] + results);
    assert working + [assistant] + results == working + ([assistant] + results);
  }

  lemma ExchangeAppended(env: Env, ready: seq<Message>, r: K.Response, batch: nat)
    requires WellFormed(ready)
    ensures WellFormed(ready + [Assistant(r.content, r.calls)] + BatchOf(env, r.calls, batch))
  {
    B.BatchAnswers(r.calls, env.execute(batch), B.Trace(env.registry, r.calls, env.order(batch, r.calls)));
    ExchangeAfter(ready, Assistant(r.content, r.calls), BatchOf(env, r.calls, batch));
  }

  lemma AnswerProtocol(cfg: Config, env: Env, ready: seq<Message>, r: K.Response, round: nat, made: nat, asked: Log)
    requires WellFormed(ready) && AllWellFormed(asked.sent)
    ensures var turn := Answer(cfg, env, ready, r, round, made, asked);
      && turn.log.tails == asked.tails && AllWellFormed(turn.log.sent)
      && (if turn.Goes? then WellFormed(turn.messages) else WellFormed(HandedOn(turn.outcome)))
  {
    if r.calls == [] {
      ConcludeKeepsProtocol(cfg, env, ready, r, round, made, asked);
    } else {
      ExchangeAppended(env, ready, r, asked.batches);
    }
  }

  lemma AskProtocol(cfg: Config, env: Env, ready: seq<Message>, round: nat, made: nat, log: Log)
    requires AllWellFormed(log.sent) && (WellFormed(ready) <==> AllClean(log.tails))
    ensures var turn := Ask(cfg, env, ready, round, made, log);
      && turn.log.tails == log.tails
      && (if AllClean(log.tails)
          then AllWellFormed(turn.log.sent) && WellFormed(if turn.Goes? then turn.messages else HandedOn(turn.outcome))
          else !AllWellFormed(turn.log.sent))
  {
    var asked := Sent(log, [ready]);
    AppendWellFormed(log.sent, [ready]);
    assert [ready][0] == ready;
    match env.complete(Calls(log), ready)
    case Raised =>
    case Answered(r) =>
      if WellFormed(ready) {
        AnswerProtocol(cfg, env, ready, r, round, made, asked);
      } else {
        assert !AllWellFormed([ready]);
        DirtyStaysDirty(asked, Answer(cfg, env, ready, r, round, made, asked).log);
      }
  }

  /** One round: a clean one leaves clean logs and well-formed messages; one whose compaction cut through an
      exchange leaves both the cut and the malformed request in the log. */
  lemma RoundProtocol(cfg: Config, env: Env, ms: seq<Message>, round: nat, made: nat, log: Log)
    requires WellFormed(ms) && AllWellFormed(log.sent) && AllClean(log.tails)
    ensures var turn := Round(cfg, env, ms, round, made, log);
      if AllClean(turn.log.tails)
      then AllWellFormed(turn.log.sent) && WellFormed(if turn.Goes? then turn.messages else HandedOn(turn.outcome))
      else !AllWellFormed(turn.log.sent)
  {
    PrepareExact(cfg, env, ms, log);
    var p := Prepare(cfg, env, ms, log);
    if p.messages.Some? {
      AskProtocol(cfg, env, p.messages.value, round, made, p.log);
    }
  }

  /** Every request follows the protocol if and only if no compaction cut through an exchange; and then so
      does the list the run hands on. */
  lemma {:induction false} RoundsProtocolExact(cfg: Config, env: Env, ms: seq<Message>, round: nat, made: nat, log: Log)
    requires WellFormed(ms) && AllWellFormed(log.sent) && AllClean(log.tails)
    ensures var end := Rounds(cfg, env, ms, round, made, log);
      Protocol(end.1) && (AllClean(end.1.tails) ==> WellFormed(HandedOn(end.0)))
    decreases cfg.maxToolRounds - round
  {
    if round < cfg.maxToolRounds {
      RoundProtocol(cfg, env, ms, round, made, log);
      var turn := Round(cfg, env, ms, round, made, log);
      if turn.Goes? {
        if AllClean(turn.log.tails) {
          RoundsProtocolExact(cfg, env, turn.messages, round + 1, turn.made, turn.log);
        } else {
          RoundsExtend(cfg, env, turn.messages, round + 1, turn.made, turn.log);
          DirtyStaysDirty(turn.log, Rounds(cfg, env, turn.messages, round + 1, turn.made, turn.log).1);
        }
      }
    }
  }

  lemma AsMembers(log: Log)
    ensures AllWellFormed(log.sent) <==> forall ms :: ms in log.sent ==> WellFormed(ms)
    ensures AllClean(log.tails) <==> forall tail :: tail in log.tails ==> C.CleanCut(tail)
  {
    assert forall i :: 0 <= i < |log.sent| ==> log.sent[i] in log.sent;
    assert forall i :: 0 <= i < |log.tails| ==> log.tails[i] in log.tails;
  }

  lemma RunProtocolExact(cfg: Config, env: Env, messages: seq<Message>)
    requires WellFormed(messages)
    ensures var (outcome, log) := Rounds(cfg, env, messages, 0, 0, EMPTY_LOG);
      && ((forall ms :: ms in log.sent ==> WellFormed(ms)) <==> (forall tail :: tail in log.tails ==> C.CleanCut(tail)))
      && ((forall tail :: tail in log.tails ==> C.CleanCut(tail)) ==> WellFormed(HandedOn(outcome)))
  {
    RoundsProtocolExact(cfg, env, messages, 0, 0, EMPTY_LOG);
    var log := Rounds(cfg, env, messages, 0, 0, EMPTY_LOG).1;
    AsMembers(log);
  }

  /** A run pauses in front of a blocked batch, with the message that asked for it. */
  lemma {:induction false} PausesBeforeBatch(cfg: Config, env: Env, ms: seq<Message>, round: nat, made: nat, log: Log)
    ensures var (outcome, _) := Rounds(cfg, env, ms, round, made, log);
      outcome.AwaitsApproval? ==>
        && outcome.calls != [] && Blocked(env, outcome.calls)
        && outcome.assistant.Assistant? && outcome.assistant.calls == outcome.calls
    decreases cfg.maxToolRounds - round
  {
    if round < cfg.maxToolRounds {
      var turn := Round(cfg, env, ms, round, made, log);
      if turn.Goes? {
        PausesBeforeBatch(cfg, env, turn.messages, round + 1, turn.made, turn.log);
      }
    }
  }

  /** Resuming a paused run after an approval keeps the protocol: the list it paused with, the assistant's message,
      and the results of its calls are well-formed again, if the run's own compactions were clean. */
  lemma ResumeKeepsProtocol(cfg: Config, env: Env, messages: seq<Message>, results: seq<Message>)
    requires WellFormed(messages) && Rounds(cfg, env, messages, 0, 0, EMPTY_LOG).0.AwaitsApproval?
    requires AllClean(Rounds(cfg, env, messages, 0, 0, EMPTY_LOG).1.tails)
    requires Answers(Rounds(cfg, env, messages, 0, 0, EMPTY_LOG).0.calls, results)
    ensures var paused := Rounds(cfg, env, messages, 0, 0, EMPTY_LOG).0;
      WellFormed(paused.working + [paused.assistant] + results)
  {
    var paused := Rounds(cfg, env, messages, 0, 0, EMPTY_LOG).0;
    RoundsProtocolExact(cfg, env, messages, 0, 0, EMPTY_LOG);
    PausesBeforeBatch(cfg, env, messages, 0, 0, EMPTY_LOG);
    ExchangeAfter(paused.working, paused.assistant, results);
  }

  // ---- approval ----------------------------------------------------------------------------------

  predicate NoWrites(registry: B.Registry, calls: seq<ToolCall>) {
    forall c :: c in calls ==> !IsWrite(registry, c)
  }

  /** Under a gate that denies every write, a round executes none, and pauses only in front of one. */
  lemma RoundExecutesNoWrites(cfg: Config, env: Env, ms: seq<Message>, round: nat, made: nat, log: Log)
    requires forall c :: IsWrite(env.registry, c) ==> !env.approved(c)
    requires NoWrites(env.registry, log.executed)
    ensures var turn := Round(cfg, env, ms, round, made, log);
      && NoWrites(env.registry, turn.log.executed)
      && (turn.Ends? && turn.outcome.AwaitsApproval? ==> !NoWrites(env.registry, turn.outcome.calls))
  {
    var p := Prepare(cfg, env, ms, log);
    if p.messages.Some? {
      match env.complete(Calls(p.log), p.messages.value)
      case Raised =>
      case Answered(r) =>
        WriteCallsExact(env.registry, r.calls);
    }
  }

  /** So the loop itself never executes a write, in any round. */
  lemma {:induction false} RoundsExecuteNoWrites(cfg: Config, env: Env, ms: seq<Message>, round: nat, made: nat, log: Log)
    requires forall c :: IsWrite(env.registry, c) ==> !env.approved(c)
    requires NoWrites(env.registry, log.executed)
    ensures var (outcome, log') := Rounds(cfg, env, ms, round, made, log);
      && NoWrites(env.registry, log'.executed)
      && (outcome.AwaitsApproval? ==> !NoWrites(env.registry, outcome.calls))
    decreases cfg.maxToolRounds - round
  {
    if round < cfg.maxToolRounds {
      RoundExecutesNoWrites(cfg, env, ms, round, made, log);
      var turn := Round(cfg, env, ms, round, made, log);
      if turn.Goes? {
        RoundsExecuteNoWrites(cfg, env, turn.messages, round + 1, turn.made, turn.log);
      }
    }
  }
}

/** A run with default settings that sends a malformed request. */
module AgentLoopRuns {
  import opened Wrappers
  import opened Transcript
  import opened AgentLoop
  import T = Truncation
  import C = Compaction
  import CR = CompactionRuns
  import K = Continuation

  const OTHER := ToolCall("o", "read_file", "{}")

  /** A model that asks for two tools at once, and then for one at a time. */
  function AsksForTools(n: nat): seq<ToolCall> {
    if n == 0 then [CR.CALL, OTHER] else [CR.CALL]
  }

  ghost predicate KeepsAsking(env: Env) {
    && (forall n: nat, ms :: env.complete(n, ms) == K.Answered(K.Response("", "tool_calls", AsksForTools(n))))
    && env.registry == map[]
    && (forall n: nat, ms :: env.summarize(n, ms).Some?)
  }

  /** A round of that model that is not compacted. */
  lemma AskingRound(cfg: Config, env: Env, ms: seq<Message>, round: nat, made: nat, log: Log)
    requires KeepsAsking(env) && !C.Compressible(cfg.compaction, ms)
    ensures var turn := Round(cfg, env, ms, round, made, log);
      && turn.Goes? && turn.log.tails == log.tails && Calls(turn.log) == Calls(log) + 1
      && |turn.messages| == |ms| + 1 + |AsksForTools(Calls(log))|
      && (forall i :: 0 <= i < |ms| ==> turn.messages[i] == T.TruncateMessage(cfg.compaction.microLimit, ms[i]))
      && (forall i :: |ms| < i < |turn.messages| ==> turn.messages[i].Tool?)
  {
    var cut := T.TruncateAll(cfg.compaction.microLimit, ms);
    assert cut != [] ==> cut[0] == T.TruncateMessage(cfg.compaction.microLimit, ms[0]);
    assert !C.Compressible(cfg.compaction, cut);
    var calls := AsksForTools(Calls(log));
    WriteCallsExact(env.registry, calls);
    BatchIsTools(env, calls, log.batches);
  }

  /** The messages after two rounds are compacted, and the first one kept is a tool result. */
  lemma DirtyThirdRound(cfg: Config, env: Env, ms: seq<Message>, made: nat, log: Log, question: string)
    requires cfg.compaction == CR.DEFAULTS && |question| > CR.DEFAULTS.threshold && KeepsAsking(env)
    requires |ms| == 7 && ms[0].System? && ms[1] == User(question) && ms[3].Tool?
    ensures !AllClean(Round(cfg, env, ms, 2, made, log).log.tails)
  {
    var cut := T.TruncateAll(CR.DEFAULTS.microLimit, ms);
    assert cut[0] == ms[0] && cut[1] == ms[1] && cut[3].Tool?;
    C.TotalCharsAtLeast(cut, 1);
    assert |C.Conversation(cut)| == 6 && C.CompressCount(CR.DEFAULTS, 6) == 2;
    assert C.Kept(CR.DEFAULTS, cut)[0] == cut[3];
    var tails := Prepare(cfg, env, ms, log).log.tails;
    assert tails[|log.tails|] == C.Kept(CR.DEFAULTS, cut);
  }

  lemma RunEndsDirty(cfg: Config, env: Env, start: seq<Message>, first: Turn, second: Turn)
    requires cfg.maxToolRounds >= 3 && WellFormed(start)
    requires first == Round(cfg, env, start, 0, 0, EMPTY_LOG) && first.Goes?
    requires second == Round(cfg, env, first.messages, 1, first.made, first.log) && second.Goes?
    requires !AllClean(Round(cfg, env, second.messages, 2, second.made, second.log).log.tails)
    ensures exists ms :: ms in Rounds(cfg, env, start, 0, 0, EMPTY_LOG).1.sent && !WellFormed(ms)
  {
    hide Round;
    var third := Round(cfg, env, second.messages, 2, second.made, second.log);
    var end := Rounds(cfg, env, start, 0, 0, EMPTY_LOG).1;
    assert end == Rounds(cfg, env, first.messages, 1, first.made, first.log).1;
    assert end == Rounds(cfg, env, second.messages, 2, second.made, second.log).1;
    if third.Goes? {
      RoundsExtend(cfg, env, third.messages, 3, third.made, third.log);
      DirtyStaysDirty(third.log, end);
    }
    RunProtocolExact(cfg, env, start);
    AsMembers(end);
  }

  /** With default settings, an ordinary conversation: a system prompt, and a question over the compaction threshold.
      The model calls two tools, then one; and the compaction before its third answer cuts through the first exchange,
      so the third request is malformed. */
  lemma DefaultsCanSplitExchange(cfg: Config, env: Env, question: string)
    requires cfg.compaction == CR.DEFAULTS && cfg.maxToolRounds >= 3 && |question| > CR.DEFAULTS.threshold
    requires KeepsAsking(env)
    ensures var start := [System("s"), User(question)];
      WellFormed(start) && exists ms :: ms in Rounds(cfg, env, start, 0, 0, EMPTY_LOG).1.sent && !WellFormed(ms)
  {
    var start := [System("s"), User(question)];
    PlainWellFormed(start[1]);
    C.PlainThen(start[0], [start[1]]);
    assert start == [start[0]] + [start[1]];
    AskingRound(cfg, env, start, 0, 0, EMPTY_LOG);
    var first := Round(cfg, env, start, 0, 0, EMPTY_LOG);
    AskingRound(cfg, env, first.messages, 1, first.made, first.log);
    var second := Round(cfg, env, first.messages, 1, first.made, first.log);
    DirtyThirdRound(cfg, env, second.messages, second.made, second.log, question);
    RunEndsDirty(cfg, env, start, first, second);
  }
}
