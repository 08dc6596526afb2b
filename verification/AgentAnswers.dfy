/** What a run of the agent loop returns, read off the model's own answers to the requests in the log. */
module AgentAnswers {
  import opened Wrappers
  import opened Transcript
  import opened AgentLoop
  import T = Truncation
  import C = Compaction
  import B = ToolBatch
  import K = Continuation

  // ---- reading the log ---------------------------------------------------------------------------

  /** The model's answer to the k-th request. */
  function AnswerTo(env: Env, log: Log, k: nat): K.Outcome
    requires k < |log.sent| == |log.numbers|
  {
    env.complete(log.numbers[k], log.sent[k])
  }

  /** The tool calls in the answers to the first `n` requests. */
  function CallsOf(env: Env, log: Log, n: nat): seq<ToolCall>
    requires n <= |log.sent| == |log.numbers|
  {
    if n == 0 then []
    else
      CallsOf(env, log, n - 1)
      + match AnswerTo(env, log, n - 1)
        case Raised => []
        case Answered(r) => r.calls
  }

  /** A registered tool that is not read-only, and that the gate does not let through. */
  predicate Gated(env: Env, call: ToolCall) {
    call.name in env.registry && !env.registry[call.name].isReadOnly && !env.approved(call)
  }

  /** The answer to the k-th request asked for tools, and no call among them needs approval. */
  predicate AskedForTools(env: Env, log: Log, k: nat)
    requires k < |log.sent| == |log.numbers|
  {
    match AnswerTo(env, log, k)
    case Raised => false
    case Answered(r) => r.calls != [] && forall c :: c in r.calls ==> !Gated(env, c)
  }

  /** Every batch so far was the answer to a request of its own, and was executed whole. */
  predicate BatchesAnswered(env: Env, log: Log) {
    && log.batches <= |log.sent| == |log.numbers|
    && (forall k :: 0 <= k < log.batches ==> AskedForTools(env, log, k))
    && log.executed == CallsOf(env, log, log.batches)
  }

  // ---- the final text ----------------------------------------------------------------------------

  function TextOf(answer: K.Outcome): string {
    match answer
    case Raised => ""
    case Answered(r) => r.content
  }

  predicate Cut(answer: K.Outcome) {
    answer.Answered? && answer.response.finish == "length"
  }

  /** The texts of all these answers, in order. */
  function Texts(complete: K.Backend, sent: seq<seq<Message>>, numbers: seq<nat>): string
    requires |sent| == |numbers|
  {
    if sent == [] then "" else TextOf(complete(numbers[0], sent[0])) + Texts(complete, sent[1..], numbers[1..])
  }

  /** Every answer but the last was cut short, and the request after it shows the text so far and asks to go on. */
  predicate Continued(complete: K.Backend, sent: seq<seq<Message>>, numbers: seq<nat>)
    requires |sent| == |numbers| > 0
  {
    |sent| > 1 ==>
      && Cut(complete(numbers[0], sent[0]))
      && sent[1] == sent[0] + [Assistant(TextOf(complete(numbers[0], sent[0])), []), User(K.PROMPT)]
      && Continued(complete, sent[1..], numbers[1..])
  }

  function LastAnswer(complete: K.Backend, sent: seq<seq<Message>>, numbers: seq<nat>): K.Outcome
    requires |sent| == |numbers| > 0
  {
    complete(numbers[|numbers| - 1], sent[|sent| - 1])
  }

  /** The text of an answer that was not cut short. */
  function RepairedText(r: K.Response): string {
    if K.Blank(r.content) then K.EMPTY_FALLBACK
    else if r.finish == "content_filter" then K.FILTER_FALLBACK
    else r.content
  }

  /** The text of an answer that was cut short and its continuations: all of it, up to an answer that was not cut short or
      to the last attempt. */
  predicate ContinuedText(cfg: Config, complete: K.Backend, sent: seq<seq<Message>>, numbers: seq<nat>, content: string)
    requires |sent| == |numbers| > 0
  {
    && content == Texts(complete, sent, numbers) && Continued(complete, sent, numbers)
    && LastAnswer(complete, sent, numbers).Answered? && |sent| <= 1 + cfg.maxContinuationRetries
    && (Cut(LastAnswer(complete, sent, numbers)) ==> |sent| == 1 + cfg.maxContinuationRetries)
  }

  /** The text that the k-th answer and its continuations make. */
  predicate FinalText(cfg: Config, env: Env, log: Log, k: nat, content: string)
    requires k < |log.sent| == |log.numbers|
  {
    match AnswerTo(env, log, k)
    case Raised => false
    case Answered(r) =>
      && r.calls == []
      && if r.finish == "length" then ContinuedText(cfg, env.complete, log.sent[k..], log.numbers[k..], content)
         else |log.sent| == k + 1 && content == RepairedText(r)
  }

  lemma NumbersSplit(first: nat, count: nat)
    requires count > 0
    ensures Numbers(first, count) == [first] + Numbers(first + 1, count - 1)
  {
  }

  lemma TextsOfFirst(complete: K.Backend, ask: seq<Message>, n: nat, sent: seq<seq<Message>>, numbers: seq<nat>)
    requires |sent| == |numbers|
    ensures Texts(complete, [ask] + sent, [n] + numbers) == TextOf(complete(n, ask)) + Texts(complete, sent, numbers)
  {
    assert ([ask] + sent)[1..] == sent && ([n] + numbers)[1..] == numbers;
  }

  /** One request more, in front. */
  lemma ContinuedOneMore(complete: K.Backend, asked: seq<Message>, m: nat, sent: seq<seq<Message>>, numbers: seq<nat>)
    requires |sent| == |numbers| > 0 && Continued(complete, sent, numbers) && Cut(complete(m, asked))
    requires sent[0] == asked + [Assistant(TextOf(complete(m, asked)), []), User(K.PROMPT)]
    ensures Continued(complete, [asked] + sent, [m] + numbers)
    ensures LastAnswer(complete, [asked] + sent, [m] + numbers) == LastAnswer(complete, sent, numbers)
  {
    assert ([asked] + sent)[1..] == sent && ([m] + numbers)[1..] == numbers;
  }

  lemma Alone(complete: K.Backend, asked: seq<Message>, m: nat)
    ensures Continued(complete, [asked], [m]) && LastAnswer(complete, [asked], [m]) == complete(m, asked)
  {
  }

  /** Going on after an answer that was cut short: what is sent, and when it stops.  `asked` was the request. */
  lemma {:induction false} ContinuationStops(complete: K.Backend, asked: seq<Message>, m: nat, gathered: string,
                                             retries: nat, n: nat)
    requires Cut(complete(m, asked))
    ensures var working := asked + [Assistant(TextOf(complete(m, asked)), [])];
      var more := K.ContinueFrom(complete, working, gathered, retries, n);
      var (sent, numbers) := ([asked] + more.sent, [m] + Numbers(n, |more.sent|));
      && |more.sent| <= retries && Continued(complete, sent, numbers)
      && (more.text.Some? <==> LastAnswer(complete, sent, numbers).Answered?)
      && (more.text.Some? && Cut(LastAnswer(complete, sent, numbers)) ==> |more.sent| == retries)
    decreases retries
  {
    var text := TextOf(complete(m, asked));
    var working := asked + [Assistant(text, [])];
    var more := K.ContinueFrom(complete, working, gathered, retries, n);
    var numbers := Numbers(n, |more.sent|);
    hide Continued, LastAnswer;
    Alone(complete, asked, m);
    if retries == 0 {
      assert [asked] + more.sent == [asked] && [m] + numbers == [m];
    } else {
      var ask := working + [User(K.PROMPT)];
      assert ask == asked + [Assistant(text, []), User(K.PROMPT)];
      NumbersSplit(n, |more.sent|);
      Alone(complete, ask, n);
      if Cut(complete(n, ask)) {
        ContinuationStops(complete, ask, n, gathered + TextOf(complete(n, ask)), retries - 1, n + 1);
      } else {
        assert more.sent == [ask] && numbers == [n];
      }
      ContinuedOneMore(complete, asked, m, more.sent, numbers);
    }
  }

  lemma JoinThree(a: string, b: string, c: string)
    ensures a + (b + c) == (a + b) + c
  {
  }

  /** And the text that comes out: `gathered` is what there is, and `before` what there was before that answer. */
  lemma {:induction false} ContinuationText(complete: K.Backend, asked: seq<Message>, m: nat, before: string,
                                            gathered: string, retries: nat, n: nat)
    requires Cut(complete(m, asked)) && gathered == before + TextOf(complete(m, asked))
    ensures var working := asked + [Assistant(TextOf(complete(m, asked)), [])];
      var more := K.ContinueFrom(complete, working, gathered, retries, n);
      more.text.Some? ==>
        more.text.value == before + Texts(complete, [asked] + more.sent, [m] + Numbers(n, |more.sent|))
    decreases retries
  {
    var text := TextOf(complete(m, asked));
    var working := asked + [Assistant(text, [])];
    var more := K.ContinueFrom(complete, working, gathered, retries, n);
    var numbers := Numbers(n, |more.sent|);
    TextsOfFirst(complete, asked, m, more.sent, numbers);
    JoinThree(before, text, Texts(complete, more.sent, numbers));
    if retries > 0 {
      var ask := working + [User(K.PROMPT)];
      NumbersSplit(n, |more.sent|);
      if Cut(complete(n, ask)) {
        ContinuationText(complete, ask, n, gathered, gathered + TextOf(complete(n, ask)), retries - 1, n + 1);
      } else {
        assert more.sent == [ask] + [] && numbers == [n] + [];
        TextsOfFirst(complete, ask, n, [], []);
      }
    }
    hide Texts;
  }

  lemma ContinuationTells(cfg: Config, complete: K.Backend, ready: seq<Message>, m: nat)
    requires Cut(complete(m, ready))
    ensures var text := TextOf(complete(m, ready));
      var more := K.ContinueFrom(complete, ready + [Assistant(text, [])], text, cfg.maxContinuationRetries, m + 1);
      var (sent, numbers) := ([ready] + more.sent, [m] + Numbers(m + 1, |more.sent|));
      if more.text.Some? then ContinuedText(cfg, complete, sent, numbers, more.text.value)
      else LastAnswer(complete, sent, numbers).Raised?
  {
    hide Numbers, Texts, Continued, K.ContinueFrom;
    var text := TextOf(complete(m, ready));
    var more := K.ContinueFrom(complete, ready + [Assistant(text, [])], text, cfg.maxContinuationRetries, m + 1);
    assert text == "" + text;
    ContinuationStops(complete, ready, m, text, cfg.maxContinuationRetries, m + 1);
    ContinuationText(complete, ready, m, "", text, cfg.maxContinuationRetries, m + 1);
    var all := Texts(complete, [ready] + more.sent, [m] + Numbers(m + 1, |more.sent|));
    assert "" + all == all;
  }

  /** What the log says after a request and its continuations. */
  lemma SentAfter(log: Log, ready: seq<Message>, more: seq<seq<Message>>)
    requires |log.sent| == |log.numbers|
    ensures var (k, t) := (|log.sent|, Sent(Sent(log, [ready]), more));
      && Calls(Sent(log, [ready])) == Calls(log) + 1
      && |t.sent| == |t.numbers| == k + 1 + |more|
      && t.sent[k] == ready && t.numbers[k] == Calls(log)
      && t.sent[k..] == [ready] + more
      && t.numbers[k..] == [Calls(log)] + Numbers(Calls(log) + 1, |more|)
      && t.sent[|t.sent| - 1] == ([ready] + more)[|more|]
      && t.numbers[|t.sent| - 1] == ([Calls(log)] + Numbers(Calls(log) + 1, |more|))[|more|]
  {
    var asked := Sent(log, [ready]);
    assert asked.numbers == log.numbers + [Calls(log)];
  }

  lemma ConclusionTells(cfg: Config, env: Env, ready: seq<Message>, r: K.Response, round: nat, made: nat, before: Log)
    requires |before.sent| == |before.numbers| && r.calls == []
    requires env.complete(Calls(before), ready) == K.Answered(r)
    ensures var (outcome, log) := Conclude(cfg, env, ready, r, round, made, Sent(before, [ready]));
      var k := |before.sent|;
      && k < |log.sent| == |log.numbers| && log.sent[k] == ready
      && (if outcome.Raised? then AnswerTo(env, log, |log.sent| - 1).Raised?
          else outcome.Finished? && FinalText(cfg, env, log, k, outcome.content))
  {
    hide Sent, Numbers, K.ContinueFrom, ContinuedText;
    var asked, k := Sent(before, [ready]), |before.sent|;
    var more := K.Completed(env.complete, ready, r, cfg.maxContinuationRetries, Calls(asked));
    SentAfter(before, ready, more.sent);
    assert Conclude(cfg, env, ready, r, round, made, asked).1 == Sent(asked, more.sent);
    if r.finish == "length" {
      ContinuationTells(cfg, env.complete, ready, Calls(before));
    }
  }

  // ---- a round -----------------------------------------------------------------------------------

  lemma PreparationAsksNothing(cfg: Config, env: Env, ms: seq<Message>, log: Log)
    ensures var p := Prepare(cfg, env, ms, log);
      p.log.sent == log.sent && p.log.numbers == log.numbers && p.log.executed == log.executed && p.log.batches == log.batches
  {
  }

  lemma {:induction false} CallsOfPrefix(env: Env, log: Log, later: Log, n: nat)
    requires |log.sent| == |log.numbers| && |later.sent| == |later.numbers|
    requires log.sent <= later.sent && log.numbers <= later.numbers && n <= |log.sent|
    ensures CallsOf(env, later, n) == CallsOf(env, log, n)
  {
    if n > 0 {
      CallsOfPrefix(env, log, later, n - 1);
    }
  }

  lemma StillAnswered(env: Env, log: Log, later: Log)
    requires BatchesAnswered(env, log) && |later.sent| == |later.numbers|
    requires log.sent <= later.sent && log.numbers <= later.numbers
    requires later.batches == log.batches && later.executed == log.executed
    ensures BatchesAnswered(env, later)
  {
    CallsOfPrefix(env, log, later, log.batches);
    forall k | 0 <= k < log.batches
      ensures AskedForTools(env, later, k)
    {
      assert AskedForTools(env, log, k);
    }
  }

  /** A round asks exactly one more question; if the run goes on, its answer asked for tools, and the next messages are the
      request, that answer, and one result for each of its calls. */
  lemma RoundFeedsResults(cfg: Config, env: Env, ms: seq<Message>, round: nat, made: nat, log: Log)
    requires BatchesAnswered(env, log) && |log.sent| == log.batches
    ensures var turn := Round(cfg, env, ms, round, made, log);
      turn.Goes? ==>
        && BatchesAnswered(env, turn.log) && |turn.log.sent| == turn.log.batches == log.batches + 1
        && var r := AnswerTo(env, turn.log, log.batches).response;
           var results := turn.messages[|turn.messages| - |r.calls|..];
           && |turn.messages| == |turn.log.sent[log.batches]| + 1 + |r.calls|
           && turn.messages == turn.log.sent[log.batches] + [Assistant(r.content, r.calls)] + results
           && Answers(r.calls, results) && turn.log.results == log.results + results && turn.made == made + |r.calls|
  {
    var p := Prepare(cfg, env, ms, log);
    var turn := Round(cfg, env, ms, round, made, log);
    if turn.Goes? {
      var ready := p.messages.value;
      var asked := Sent(p.log, [ready]);
      var r := env.complete(Calls(p.log), ready).response;
      assert AnswerTo(env, turn.log, log.batches) == K.Answered(r);
      WriteCallsExact(env.registry, r.calls);
      CallsOfPrefix(env, log, turn.log, log.batches);
      B.BatchAnswers(r.calls, env.execute(asked.batches), B.Trace(env.registry, r.calls, env.order(asked.batches, r.calls)));
      var results := BatchOf(env, r.calls, asked.batches);
      assert turn.messages[|turn.messages| - |r.calls|..] == results;
      forall k | 0 <= k < turn.log.batches
        ensures AskedForTools(env, turn.log, k)
      {
        assert k < log.batches ==> AskedForTools(env, log, k);
      }
    }
  }

  /** These are the results of executing every call once, in the order of `trace`, each at the place of its own call. */
  ghost predicate ExecutedAs(env: Env, calls: seq<ToolCall>, batch: nat, results: seq<Message>, trace: seq<nat>) {
    && |trace| == |calls| == |results| && B.Distinct(trace)
    && (forall k :: 0 <= k < |trace| ==> trace[k] < |calls|)
    && (forall k :: 0 <= k < |trace| ==>
          var call := calls[trace[k]];
          results[trace[k]] == Tool(call.id, env.execute(batch)(trace[..k], call)))
  }

  lemma BatchIsExecuted(env: Env, calls: seq<ToolCall>, batch: nat)
    requires Scheduler(env)
    ensures ExecutedAs(env, calls, batch, BatchOf(env, calls, batch), B.Trace(env.registry, calls, env.order(batch, calls)))
  {
    var order := env.order(batch, calls);
    var trace := B.Trace(env.registry, calls, order);
    B.TraceIsPermutation(env.registry, calls, order);
    forall k | 0 <= k < |trace|
      ensures trace[k] < |calls|
      ensures BatchOf(env, calls, batch)[trace[k]] == Tool(calls[trace[k]].id, env.execute(batch)(trace[..k], calls[trace[k]]))
    {
      B.EachResultIsItsOwn(env.registry, calls, env.execute(batch), order, k);
    }
  }

  /** The messages a round adds after the answer are what executing its calls returned. */
  lemma RoundExecutes(cfg: Config, env: Env, ms: seq<Message>, round: nat, made: nat, log: Log)
    requires Scheduler(env) && |log.sent| == |log.numbers| && Round(cfg, env, ms, round, made, log).Goes?
    ensures var turn := Round(cfg, env, ms, round, made, log);
      && |log.sent| < |turn.log.sent| == |turn.log.numbers| && AnswerTo(env, turn.log, |log.sent|).Answered?
      && var calls := AnswerTo(env, turn.log, |log.sent|).response.calls;
         && |calls| <= |turn.messages|
         && var results := turn.messages[|turn.messages| - |calls|..];
            exists trace :: ExecutedAs(env, calls, log.batches, results, trace)
  {
    var p, turn := Prepare(cfg, env, ms, log), Round(cfg, env, ms, round, made, log);
    PreparationAsksNothing(cfg, env, ms, log);
    hide Prepare;
    var calls := env.complete(Calls(p.log), p.messages.value).response.calls;
    var results := BatchOf(env, calls, log.batches);
    BatchIsExecuted(env, calls, log.batches);
    assert |results| == |calls|;
    assert turn.messages[|turn.messages| - |calls|..] == results;
  }

  // ---- a run -------------------------------------------------------------------------------------

  /** The last call to the backend asked for a summary of these messages, and raised. */
  predicate SummaryRaised(env: Env, log: Log, ms: seq<Message>) {
    log.summaries > 0 && env.summarize(Calls(log) - 1, ms).None?
  }

  /** The outcome agrees with the answers in the log. */
  ghost predicate Reported(cfg: Config, env: Env, outcome: Outcome, log: Log) {
    && BatchesAnswered(env, log) && log.batches <= cfg.maxToolRounds
    && match outcome
       case Finished(content, _, rounds, hitSafetyLimit, working) =>
         && (hitSafetyLimit <==> log.batches == cfg.maxToolRounds)
         && if hitSafetyLimit then content == LIMIT_TEXT && rounds == log.batches == |log.sent|
            else
              && log.batches < |log.sent| && rounds == log.batches + 1 && working == log.sent[log.batches]
              && FinalText(cfg, env, log, log.batches, content)
       case AwaitsApproval(calls, working, assistant) =>
         && |log.sent| == log.batches + 1 && working == log.sent[log.batches]
         && (exists c :: c in calls && Gated(env, c))
         && AnswerTo(env, log, log.batches).Answered?
         && var r := AnswerTo(env, log, log.batches).response;
            calls == r.calls && assistant == Assistant(r.content, r.calls)
       case Raised =>
         if |log.sent| == log.batches then exists ms :: SummaryRaised(env, log, ms)
         else AnswerTo(env, log, |log.sent| - 1).Raised?
  }

  lemma PreparationFails(cfg: Config, env: Env, ms: seq<Message>, log: Log)
    requires Prepare(cfg, env, ms, log).messages.None?
    ensures exists oldest :: SummaryRaised(env, Prepare(cfg, env, ms, log).log, oldest)
  {
    var cut := T.TruncateAll(cfg.compaction.microLimit, ms);
    assert SummaryRaised(env, log.(summaries := log.summaries + 1), C.Summarized(cfg.compaction, cut));
  }

  lemma LastRoundReported(cfg: Config, env: Env, ready: seq<Message>, round: nat, made: nat, log: Log)
    requires BatchesAnswered(env, log) && |log.sent| == log.batches == round < cfg.maxToolRounds
    requires Ask(cfg, env, ready, round, made, log).Ends?
    ensures var turn := Ask(cfg, env, ready, round, made, log); Reported(cfg, env, turn.outcome, turn.log)
  {
    var asked, turn := Sent(log, [ready]), Ask(cfg, env, ready, round, made, log);
    assert asked.sent[round] == ready && asked.numbers[round] == Calls(log);
    StillAnswered(env, log, asked);
    match env.complete(Calls(log), ready)
    case Raised =>
    case Answered(r) =>
      if r.calls == [] {
        ConclusionTells(cfg, env, ready, r, round, made, log);
        hide Conclude, FinalText;
        StillAnswered(env, asked, turn.log);
      } else {
        WriteCallsExact(env.registry, r.calls);
      }
  }

  lemma RoundReported(cfg: Config, env: Env, ms: seq<Message>, round: nat, made: nat, log: Log)
    requires BatchesAnswered(env, log) && |log.sent| == log.batches == round < cfg.maxToolRounds
    requires Round(cfg, env, ms, round, made, log).Ends?
    ensures var turn := Round(cfg, env, ms, round, made, log); Reported(cfg, env, turn.outcome, turn.log)
  {
    var p := Prepare(cfg, env, ms, log);
    PreparationAsksNothing(cfg, env, ms, log);
    StillAnswered(env, log, p.log);
    if p.messages.None? {
      PreparationFails(cfg, env, ms, log);
    } else {
      LastRoundReported(cfg, env, p.messages.value, round, made, p.log);
    }
  }

  lemma {:induction false} RoundsReported(cfg: Config, env: Env, ms: seq<Message>, round: nat, made: nat, log: Log)
    requires BatchesAnswered(env, log) && |log.sent| == log.batches == round <= cfg.maxToolRounds
    ensures var (outcome, end) := Rounds(cfg, env, ms, round, made, log); Reported(cfg, env, outcome, end)
    decreases cfg.maxToolRounds - round
  {
    if round < cfg.maxToolRounds {
      var turn := Round(cfg, env, ms, round, made, log);
      if turn.Goes? {
        RoundFeedsResults(cfg, env, ms, round, made, log);
        hide BatchesAnswered, Reported, Round;
        RoundsReported(cfg, env, turn.messages, round + 1, turn.made, turn.log);
      } else {
        RoundReported(cfg, env, ms, round, made, log);
        hide Reported, Round;
      }
    }
  }

  /** For every model: each batch was asked for by the answer to a request of its own, and executed whole.  The safety limit
      is reported exactly if all rounds executed a batch.  Otherwise the text is that of the answer without tool calls: as
      it stands, or its fallback, or with the texts of all its continuations.  A pause hands on the answer that asked for
      a write, and the run raises only if the last call to the backend did. */
  lemma RunReported(cfg: Config, env: Env, messages: seq<Message>)
    ensures var (outcome, log) := Rounds(cfg, env, messages, 0, 0, EMPTY_LOG); Reported(cfg, env, outcome, log)
  {
    hide Rounds;
    RoundsReported(cfg, env, messages, 0, 0, EMPTY_LOG);
  }

  /** The plain case: a normal answer to the last round's request is returned as it stands. */
  lemma PlainAnswerIsReturned(cfg: Config, env: Env, messages: seq<Message>)
    requires Rounds(cfg, env, messages, 0, 0, EMPTY_LOG).0.Finished?
    requires !Rounds(cfg, env, messages, 0, 0, EMPTY_LOG).0.hitSafetyLimit
    ensures var (outcome, log) := Rounds(cfg, env, messages, 0, 0, EMPTY_LOG);
      && 0 < outcome.rounds <= |log.sent| == |log.numbers|
      && match AnswerTo(env, log, outcome.rounds - 1)
         case Raised => false
         case Answered(r) =>
           !K.Blank(r.content) && r.finish != "length" && r.finish != "content_filter" ==>
             outcome.content == r.content && outcome.rounds == |log.sent|
  {
    hide Rounds;
    RunReported(cfg, env, messages);
  }

  // ---- what is sent ------------------------------------------------------------------------------

  /** A round's messages are the old ones with long tool results cut; only if these are still over the threshold, and long
      enough to be worth it, does a summary take the place of the oldest. */
  lemma PreparationTells(cfg: Config, env: Env, ms: seq<Message>, log: Log)
    ensures var (p, cut) := (Prepare(cfg, env, ms, log), T.TruncateAll(cfg.compaction.microLimit, ms));
      var compacts := C.TotalChars(cut) > cfg.compaction.threshold && |ms| >= 2
                      && |ms| - (if ms[0].System? then 1 else 0) >= cfg.compaction.minKeep + 2;
      && p.log.summaries == log.summaries + (if compacts then 1 else 0)
      && (!compacts ==> p.messages == Some(cut))
      && (compacts ==>
            && C.Compressible(cfg.compaction, cut)
            && var summary := env.summarize(Calls(log), C.Summarized(cfg.compaction, cut));
               p.messages == if summary.None? then None else Some(C.Compacted(cfg.compaction, cut, summary.value)))
  {
  }
}
