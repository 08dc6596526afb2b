/** Messages of a conversation and the tool-calling protocol they have to follow. */
module Transcript {
  datatype ToolCall = ToolCall(id: string, name: string, arguments: string)

  datatype Message =
    | System(content: string)
    | User(content: string)
    | Assistant(content: string, calls: seq<ToolCall>)
    | Tool(callId: string, content: string)

  /** One result per call, in call order. */
  predicate Answers(calls: seq<ToolCall>, results: seq<Message>) {
    && |results| == |calls|
    && (forall i :: 0 <= i < |calls| ==> results[i].Tool? && results[i].callId == calls[i].id)
  }

  /** How many results must follow a message at once. */
  function Expected(m: Message): nat {
    if m.Assistant? then |m.calls| else 0
  }

  /** The first message is no result, and is followed by exactly the results it asks for. */
  predicate StartsWell(ms: seq<Message>)
    requires ms != []
  {
    var n := Expected(ms[0]);
    && !ms[0].Tool?
    && |ms| > n
    && (ms[0].Assistant? ==> Answers(ms[0].calls, ms[1..1 + n]))
  }

  /** Every assistant message with tool calls is followed by exactly its results, and there are no others. */
  predicate WellFormed(ms: seq<Message>)
    decreases |ms|
  {
    ms == [] || (StartsWell(ms) && WellFormed(ms[1 + Expected(ms[0])..]))
  }

  /** Only the first message and its results matter for that. */
  lemma StartsAlike(a: seq<Message>, b: seq<Message>)
    requires a != [] && |a| > Expected(a[0])
    ensures StartsWell(a + b) <==> StartsWell(a)
  {
    var n := Expected(a[0]);
    assert (a + b)[0] == a[0] && (a + b)[1..1 + n] == a[1..1 + n];
  }

  lemma {:induction false} WellFormedConcat(a: seq<Message>, b: seq<Message>)
    requires WellFormed(a)
    ensures WellFormed(a + b) <==> WellFormed(b)
    decreases |a|
  {
    if a == [] {
      assert a + b == b;
    } else {
      var n := Expected(a[0]);
      StartsAlike(a, b);
      hide Answers;
      assert (a + b)[0] == a[0] && (a + b)[1 + n..] == a[1 + n..] + b;
      WellFormedConcat(a[1 + n..], b);
    }
  }

  /** One exchange: the assistant's request and the results that answer it. */
  lemma ExchangeWellFormed(content: string, calls: seq<ToolCall>, results: seq<Message>)
    requires Answers(calls, results)
    ensures WellFormed([Assistant(content, calls)] + results)
  {
    var ms := [Assistant(content, calls)] + results;
    assert ms[1..1 + |calls|] == results && ms[1 + |calls|..] == [];
  }

  lemma PlainWellFormed(m: Message)
    requires !m.Tool? && Expected(m) == 0
    ensures WellFormed([m])
  {
    assert [m][1..1] == [] && [m][1..] == [];
  }

  /** Cutting a well-formed transcript leaves a well-formed rest exactly if the rest does not start with
      a tool result. */
  lemma {:induction false} SuffixExact(ms: seq<Message>, k: nat)
    requires WellFormed(ms) && k <= |ms|
    ensures WellFormed(ms[k..]) <==> k == |ms| || !ms[k].Tool?
    decreases |ms|
  {
    if 0 < k < |ms| {
      var n := Expected(ms[0]);
      if k <= n {
        assert ms[1..1 + n][k - 1] == ms[k];
        assert ms[k..][0] == ms[k];
      } else {
        assert ms[k..] == ms[1 + n..][k - 1 - n..];
        SuffixExact(ms[1 + n..], k - 1 - n);
      }
    } else if k == 0 {
      assert ms[k..] == ms;
    }
  }

  /** The same roles, calls and ids, with possibly different text in the tool results. */
  predicate SameShape(a: seq<Message>, b: seq<Message>) {
    && |a| == |b|
    && (forall i :: 0 <= i < |a| ==>
          if a[i].Tool? then b[i].Tool? && b[i].callId == a[i].callId else b[i] == a[i])
  }

  lemma ShapeAnswers(calls: seq<ToolCall>, a: seq<Message>, b: seq<Message>)
    requires SameShape(a, b)
    ensures Answers(calls, a) <==> Answers(calls, b)
  {
    forall i | 0 <= i < |a|
      ensures a[i].Tool? <==> b[i].Tool?
      ensures a[i].Tool? ==> a[i].callId == b[i].callId
    {
    }
  }

  lemma {:induction false} ShapeDecides(a: seq<Message>, b: seq<Message>)
    requires SameShape(a, b)
    ensures WellFormed(a) <==> WellFormed(b)
    decreases |a|
  {
    if a != [] && !a[0].Tool? && |a| > Expected(a[0]) {
      var n := Expected(a[0]);
      ShapeDecides(a[1 + n..], b[1 + n..]);
      if a[0].Assistant? {
        ShapeAnswers(a[0].calls, a[1..1 + n], b[1..1 + n]);
      }
    }
  }
}

/** Micro-compaction: over-long tool results are cut, before every round again. */
module Truncation {
  import opened Transcript

  const NOTICE_HEAD := "\n\n[Truncated — original: "
  const NOTICE_TAIL := " chars]"

  function Digits(n: nat): nat {
    if n < 10 then 1 else Digits(n / 10) + 1
  }

  function Decimal(n: nat): (s: string)
    ensures |s| == Digits(n)
  {
    var last := ['0' + (n % 10) as char];
    if n < 10 then last else Decimal(n / 10) + last
  }

  function Notice(size: nat): (s: string)
    ensures |s| == 32 + Digits(size)
  {
    NOTICE_HEAD + Decimal(size) + NOTICE_TAIL
  }

  function Truncate(limit: nat, content: string): string {
    if |content| > limit then content[..limit] + Notice(|content|) else content
  }

  function TruncateMessage(limit: nat, m: Message): Message {
    if m.Tool? then m.(content := Truncate(limit, m.content)) else m
  }

  function TruncateAll(limit: nat, ms: seq<Message>): seq<Message> {
    seq(|ms|, i requires 0 <= i < |ms| => TruncateMessage(limit, ms[i]))
  }

  lemma TruncationKeepsProtocol(limit: nat, ms: seq<Message>)
    ensures WellFormed(TruncateAll(limit, ms)) <==> WellFormed(ms)
  {
    ShapeDecides(ms, TruncateAll(limit, ms));
  }

  /** The list is rebuilt, and returned only if something was cut. */
  method TruncateToolResults(limit: nat, messages: seq<Message>) returns (result: seq<Message>)
    ensures result == TruncateAll(limit, messages)
    ensures |result| == |messages|
    ensures forall i :: 0 <= i < |messages| && !(messages[i].Tool? && |messages[i].content| > limit) ==>
      result[i] == messages[i]
    ensures forall i :: 0 <= i < |messages| && messages[i].Tool? && |messages[i].content| > limit ==>
      result[i] == Tool(messages[i].callId, messages[i].content[..limit] + Notice(|messages[i].content|))
  {
    hide Notice;
    result := [];
    var changed := false;
    for i := 0 to |messages|
      invariant |result| == i
      invariant forall k :: 0 <= k < i ==> result[k] == TruncateMessage(limit, messages[k])
      invariant !changed ==> forall k :: 0 <= k < i ==> result[k] == messages[k]
    {
      var m := messages[i];
      if m.Tool? && |m.content| > limit {
        result := result + [Tool(m.callId, m.content[..limit] + Notice(|m.content|))];
        changed := true;
      } else {
        result := result + [m];
      }
    }
    if !changed {
      result := messages;
    }
  }

  // ---- truncating again and again ----------------------------------------------------------------

  /** The text of one tool result after `rounds` rounds. */
  function Repeated(limit: nat, content: string, rounds: nat): string {
    if rounds == 0 then content else Truncate(limit, Repeated(limit, content, rounds - 1))
  }

  /** The length after one more round, for a text that is over the limit. */
  function NextLength(limit: nat, length: nat): nat {
    limit + 32 + Digits(length)
  }

  function LengthAfter(limit: nat, length: nat, rounds: nat): nat {
    if rounds == 0 then length else NextLength(limit, LengthAfter(limit, length, rounds - 1))
  }

  /** A text over the limit stays over it: every round cuts it again, keeps its first `limit` characters,
      and appends one notice naming the length it had a round ago. */
  lemma {:induction false} EveryRound(limit: nat, content: string, rounds: nat)
    requires |content| > limit
    ensures var text := Repeated(limit, content, rounds);
      && |text| == LengthAfter(limit, |content|, rounds) > limit
      && text[..limit] == content[..limit]
      && (rounds > 0 ==> text == content[..limit] + Notice(LengthAfter(limit, |content|, rounds - 1)))
  {
    if rounds > 0 {
      EveryRound(limit, content, rounds - 1);
    }
  }

  /** A text within the limit is never touched. */
  lemma {:induction false} ShortTextStays(limit: nat, content: string, rounds: nat)
    requires |content| <= limit
    ensures Repeated(limit, content, rounds) == content
  {
    if rounds > 0 {
      ShortTextStays(limit, content, rounds - 1);
    }
  }

  lemma {:induction false} DigitsMonotone(m: nat, n: nat)
    requires m <= n
    ensures Digits(m) <= Digits(n)
    decreases n
  {
    if n >= 10 {
      DigitsMonotone(m / 10, n / 10);
    }
  }

  lemma {:induction false} DigitsSmall(n: nat)
    ensures Digits(n) <= 1 + n / 10
  {
    if n >= 10 {
      DigitsSmall(n / 10);
    }
  }

  lemma {:induction false} LengthAfterStep(limit: nat, length: nat, rounds: nat)
    ensures LengthAfter(limit, length, rounds + 1) == LengthAfter(limit, NextLength(limit, length), rounds)
  {
    if rounds > 0 {
      LengthAfterStep(limit, length, rounds - 1);
    }
  }

  /** From above, the length falls, and each fall costs a digit. */
  lemma {:induction false} Descend(limit: nat, length: nat) returns (rounds: nat)
    requires NextLength(limit, length) <= length
    ensures rounds <= Digits(length)
    ensures LengthAfter(limit, length, rounds + 1) == LengthAfter(limit, length, rounds)
    decreases Digits(length)
  {
    var next := NextLength(limit, length);
    if next == length {
      rounds := 0;
    } else {
      DigitsMonotone(next, length);
      if Digits(next) == Digits(length) {
        rounds := 1;
      } else {
        rounds := Descend(limit, next);
        LengthAfterStep(limit, length, rounds);
        LengthAfterStep(limit, length, rounds + 1);
        rounds := rounds + 1;
      }
    }
  }

  /** From below, it rises, each rise costs a digit, and there is a ceiling. */
  lemma {:induction false} Ascend(limit: nat, length: nat) returns (rounds: nat)
    requires length <= NextLength(limit, length) && length <= 2 * (limit + 32)
    ensures rounds <= Digits(2 * (limit + 32)) - Digits(length) + 1
    ensures LengthAfter(limit, length, rounds + 1) == LengthAfter(limit, length, rounds)
    decreases Digits(2 * (limit + 32)) - Digits(length)
  {
    var ceiling := 2 * (limit + 32);
    var next := NextLength(limit, length);
    DigitsMonotone(length, ceiling);
    if next == length {
      rounds := 0;
    } else {
      DigitsMonotone(length, next);
      DigitsSmall(ceiling);
      assert next <= ceiling;
      DigitsMonotone(next, ceiling);
      if Digits(next) == Digits(length) {
        rounds := 1;
      } else {
        rounds := Ascend(limit, next);
        LengthAfterStep(limit, length, rounds);
        LengthAfterStep(limit, length, rounds + 1);
        rounds := rounds + 1;
      }
    }
  }

  lemma {:induction false} StaysSettled(limit: nat, content: string, settled: nat, later: nat)
    requires Repeated(limit, content, settled + 1) == Repeated(limit, content, settled) && later >= settled
    ensures Repeated(limit, content, later) == Repeated(limit, content, settled)
    decreases later
  {
    if later > settled {
      StaysSettled(limit, content, settled, later - 1);
    }
  }

  /** After finitely many rounds the text no longer changes. */
  lemma TruncationSettles(limit: nat, content: string) returns (settled: nat)
    ensures settled <= Digits(|content|) + Digits(2 * (limit + 32)) + 2
    ensures forall later: nat :: later >= settled ==> Repeated(limit, content, later) == Repeated(limit, content, settled)
  {
    settled := 0;
    if |content| > limit {
      var rounds: nat;
      if NextLength(limit, |content|) <= |content| {
        rounds := Descend(limit, |content|);
      } else {
        DigitsSmall(|content|);
        rounds := Ascend(limit, |content|);
      }
      EveryRound(limit, content, rounds + 1);
      EveryRound(limit, content, rounds + 2);
      settled := rounds + 1;
    } else {
      ShortTextStays(limit, content, 1);
    }
    forall later: nat | later >= settled
      ensures Repeated(limit, content, later) == Repeated(limit, content, settled)
    {
      StaysSettled(limit, content, settled, later);
    }
  }

  lemma {:induction false} DecimalInjective(m: nat, n: nat)
    requires Decimal(m) == Decimal(n)
    ensures m == n
    decreases m
  {
    var a, b := Decimal(m), Decimal(n);
    assert a[|a| - 1] == '0' + (m % 10) as char && b[|b| - 1] == '0' + (n % 10) as char;
    assert m % 10 == n % 10;
    assert Digits(m) == Digits(n);
    if m >= 10 {
      assert a[..|a| - 1] == Decimal(m / 10) && b[..|b| - 1] == Decimal(n / 10);
      DecimalInjective(m / 10, n / 10);
    }
  }

  /** The number that a row of digits stands for. */
  function Value(digits: string): int {
    if digits == "" then 0 else 10 * Value(digits[..|digits| - 1]) + (digits[|digits| - 1] as int - '0' as int)
  }

  /** The notice says the size in decimal digits, without leading zeros. */
  lemma {:induction false} DecimalReads(n: nat)
    ensures Value(Decimal(n)) == n && Decimal(n) != "" && (n > 0 ==> Decimal(n)[0] != '0')
    ensures forall i :: 0 <= i < |Decimal(n)| ==> '0' <= Decimal(n)[i] <= '9'
  {
    if n >= 10 {
      DecimalReads(n / 10);
      assert Decimal(n)[..|Decimal(n)| - 1] == Decimal(n / 10);
    }
  }

  lemma NoticeInjective(m: nat, n: nat)
    requires Notice(m) == Notice(n)
    ensures m == n
  {
    assert Notice(m)[|NOTICE_HEAD|..|Notice(m)| - |NOTICE_TAIL|] == Decimal(m);
    assert Notice(n)[|NOTICE_HEAD|..|Notice(n)| - |NOTICE_TAIL|] == Decimal(n);
    DecimalInjective(m, n);
  }

  /** The notice is meant to name the original size.  It still does after the second round only if the
      cut text happens to be as long as the original was. */
  lemma SecondRoundExact(limit: nat, content: string)
    requires |content| > limit
    ensures Repeated(limit, content, 2) == content[..limit] + Notice(|content|)
      <==> |content| == limit + 32 + Digits(|content|)
  {
    EveryRound(limit, content, 1);
    EveryRound(limit, content, 2);
    var size := LengthAfter(limit, |content|, 1);
    assert LengthAfter(limit, |content|, 0) == |content|;
    if Repeated(limit, content, 2) == content[..limit] + Notice(|content|) {
      assert (content[..limit] + Notice(size))[limit..] == Notice(size);
      assert (content[..limit] + Notice(|content|))[limit..] == Notice(|content|);
      NoticeInjective(size, |content|);
    }
  }

  lemma SecondRound(limit: nat, content: string)
    requires |content| > limit
    ensures Repeated(limit, content, 2) == content[..limit] + Notice(NextLength(limit, |content|))
  {
    EveryRound(limit, content, 2);
    assert LengthAfter(limit, |content|, 1) == NextLength(limit, LengthAfter(limit, |content|, 0));
  }

  lemma FiveDigits()
    ensures Digits(20000) == 5
  {
    assert Digits(2000) == 4 && Digits(200) == 3;
  }

  /** With the default limit, the second notice of a text of 20000 characters names 10037 as the original size. */
  lemma SecondNoticeIsWrong(content: string)
    requires |content| == 20000
    ensures Repeated(10000, content, 2) == content[..10000] + Notice(10037) != content[..10000] + Notice(20000)
  {
    FiveDigits();
    SecondRound(10000, content);
    SecondRoundExact(10000, content);
  }
}

/** Full compaction: the oldest messages are replaced by a summary. */
module Compaction {
  import opened Transcript

  datatype Config = Config(microLimit: nat, threshold: int, ratio: real, minKeep: nat)

  const MIN_MESSAGES: nat := 2
  const MIN_COMPRESS: nat := 2
  const SUMMARY_HEAD := "[Previous conversation summary]\n"
  const ACKNOWLEDGEMENT := "Understood, I have the context from our previous conversation."

  function TotalChars(ms: seq<Message>): nat {
    if ms == [] then 0 else |ms[0].content| + TotalChars(ms[1..])
  }

  predicate ShouldCompact(cfg: Config, ms: seq<Message>) {
    TotalChars(ms) > cfg.threshold
  }

  function Head(ms: seq<Message>): seq<Message> {
    if ms != [] && ms[0].System? then ms[..1] else []
  }

  function Conversation(ms: seq<Message>): seq<Message> {
    ms[|Head(ms)|..]
  }

  /** Whether there is enough to be worth a summary. */
  predicate Compressible(cfg: Config, ms: seq<Message>) {
    |ms| >= MIN_MESSAGES && |Conversation(ms)| >= cfg.minKeep + MIN_COMPRESS
  }

  function Max(a: int, b: int): int {
    if a >= b then a else b
  }

  /** How many of the oldest messages go into the summary. */
  function CompressCount(cfg: Config, length: nat): (n: nat)
    requires length >= cfg.minKeep + MIN_COMPRESS
    ensures MIN_COMPRESS <= n <= length - cfg.minKeep
  {
    var wanted := Max(MIN_COMPRESS, (length as real * cfg.ratio).Floor);
    length - Max(cfg.minKeep, length - wanted)
  }

  function Kept(cfg: Config, ms: seq<Message>): seq<Message>
    requires Compressible(cfg, ms)
  {
    Conversation(ms)[CompressCount(cfg, |Conversation(ms)|)..]
  }

  function Summarized(cfg: Config, ms: seq<Message>): seq<Message>
    requires Compressible(cfg, ms)
  {
    Conversation(ms)[..CompressCount(cfg, |Conversation(ms)|)]
  }

  function Compacted(cfg: Config, ms: seq<Message>, summary: string): seq<Message>
    requires Compressible(cfg, ms)
  {
    Head(ms) + [User(SUMMARY_HEAD + summary), Assistant(ACKNOWLEDGEMENT, [])] + Kept(cfg, ms)
  }

  /** The cut falls between exchanges: the first kept message is not a tool result. */
  predicate CleanCut(kept: seq<Message>) {
    kept == [] || !kept[0].Tool?
  }

  /** What is not summarised is kept verbatim, at least `minKeep` messages of it, and the list never grows. */
  lemma CompactionAccounts(cfg: Config, ms: seq<Message>, summary: string)
    requires Compressible(cfg, ms)
    ensures Head(ms) + Summarized(cfg, ms) + Kept(cfg, ms) == ms
    ensures |Kept(cfg, ms)| >= cfg.minKeep && |Compacted(cfg, ms, summary)| <= |ms|
    ensures Compacted(cfg, ms, summary)[|Compacted(cfg, ms, summary)| - |Kept(cfg, ms)|..] == Kept(cfg, ms)
  {
  }

  /** The system prompt stays where it is and is never summarised; the summary takes the place of what it summarises, and
      is acknowledged; all that follows is the kept end of the list. */
  lemma SummaryFollowsPrompt(cfg: Config, ms: seq<Message>, summary: string)
    requires Compressible(cfg, ms)
    ensures var (head, n) := (if ms[0].System? then 1 else 0, |Summarized(cfg, ms)|);
      var compacted := Compacted(cfg, ms, summary);
      && Summarized(cfg, ms) == ms[head..head + n]
      && |compacted| == |ms| - n + 2 && compacted[..head] == ms[..head]
      && compacted[head] == User(SUMMARY_HEAD + summary) && compacted[head + 1] == Assistant(ACKNOWLEDGEMENT, [])
      && compacted[head + 2..] == ms[head + n..]
  {
  }

  /** The summary covers the configured share of the conversation, rounded down, but at least two messages, and fewer
      only where `minKeep` messages would not be left. */
  lemma SharesExact(cfg: Config, ms: seq<Message>)
    requires Compressible(cfg, ms)
    ensures var (n, share) := (|Summarized(cfg, ms)|, |Conversation(ms)| as real * cfg.ratio);
      && n >= MIN_COMPRESS && (n as real <= share || n == MIN_COMPRESS)
      && (share < n as real + 1.0 || |Kept(cfg, ms)| == cfg.minKeep)
  {
  }

  lemma PlainThen(m: Message, rest: seq<Message>)
    requires !m.Tool? && Expected(m) == 0
    ensures WellFormed([m] + rest) <==> WellFormed(rest)
  {
    PlainWellFormed(m);
    WellFormedConcat([m], rest);
  }

  lemma Regroup(head: seq<Message>, a: Message, b: Message, rest: seq<Message>)
    ensures head + [a, b] + rest == head + ([a] + ([b] + rest))
  {
  }

  /** A system prompt, if any, and two messages without calls decide nothing about the rest. */
  lemma OpeningThen(head: seq<Message>, user: Message, assistant: Message, rest: seq<Message>)
    requires head == [] || (|head| == 1 && head[0].System?)
    requires user.User? && assistant.Assistant? && assistant.calls == []
    ensures WellFormed(head + [user, assistant] + rest) <==> WellFormed(rest)
  {
    hide WellFormed;
    PlainThen(assistant, rest);
    PlainThen(user, [assistant] + rest);
    Regroup(head, user, assistant, rest);
    var talk := [user] + ([assistant] + rest);
    if head == [] {
      assert head + talk == talk;
    } else {
      assert head == [head[0]];
      PlainThen(head[0], talk);
    }
  }

  /** Compaction keeps a transcript well-formed if and only if its cut does not split an exchange. */
  lemma CompactionExact(cfg: Config, ms: seq<Message>, summary: string)
    requires WellFormed(ms) && Compressible(cfg, ms)
    ensures WellFormed(Compacted(cfg, ms, summary)) <==> CleanCut(Kept(cfg, ms))
  {
    var cut := |Head(ms)| + CompressCount(cfg, |Conversation(ms)|);
    assert Kept(cfg, ms) == ms[cut..];
    SuffixExact(ms, cut);
    OpeningThen(Head(ms), User(SUMMARY_HEAD + summary), Assistant(ACKNOWLEDGEMENT, []), Kept(cfg, ms));
  }

  /** The threshold looks at all the text there is. */
  lemma {:induction false} TotalCharsConcat(a: seq<Message>, b: seq<Message>, m: Message)
    ensures TotalChars(a + b) == TotalChars(a) + TotalChars(b) && TotalChars([m]) == |m.content|
    decreases |a|
  {
    assert [m][1..] == [];
    if a == [] {
      assert a + b == b;
    } else {
      assert (a + b)[1..] == a[1..] + b;
      TotalCharsConcat(a[1..], b, m);
    }
  }

  lemma {:induction false} TotalCharsAtLeast(ms: seq<Message>, i: nat)
    requires i < |ms|
    ensures TotalChars(ms) >= |ms[i].content|
    decreases |ms|
  {
    if i > 0 {
      TotalCharsAtLeast(ms[1..], i - 1);
    }
  }
}

/** A compaction that cuts through an exchange. */
module CompactionRuns {
  import opened Transcript
  import opened Compaction

  const DEFAULTS := Config(10000, 400000, 0.5, 4)
  const CALL := ToolCall("c", "read_file", "{}")
  const REST: seq<Message> := [Assistant("b", [])] + ([User("d")] + [Assistant("e", [])])

  /** A call and its result after a question, and three messages more. */
  function Exchanged(question: string): seq<Message> {
    [System("s")] + ([User(question)] + ([Assistant("", [CALL])] + [Tool("c", "r")] + REST))
  }

  lemma RestWellFormed()
    ensures WellFormed(REST)
  {
    PlainWellFormed(REST[2]);
    PlainThen(REST[1], [REST[2]]);
    PlainThen(REST[0], [REST[1]] + [REST[2]]);
  }

  lemma ExchangedWellFormed(question: string)
    ensures WellFormed(Exchanged(question))
  {
    RestWellFormed();
    var exchange := [Assistant("", [CALL])] + [Tool("c", "r")];
    ExchangeWellFormed("", [CALL], [Tool("c", "r")]);
    WellFormedConcat(exchange, REST);
    PlainThen(User(question), exchange + REST);
    PlainThen(System("s"), [User(question)] + (exchange + REST));
  }

  /** With default settings, a question over the threshold is enough for a compaction whose cut falls between
      a call and its result. */
  lemma CutCanSplitExchange(question: string, summary: string)
    requires |question| > DEFAULTS.threshold
    ensures var ms := Exchanged(question);
      WellFormed(ms) && ShouldCompact(DEFAULTS, ms) && Compressible(DEFAULTS, ms)
      && !WellFormed(Compacted(DEFAULTS, ms, summary))
  {
    var ms := Exchanged(question);
    ExchangedWellFormed(question);
    TotalCharsAtLeast(ms, 1);
    assert |ms| == 7 && |Conversation(ms)| == 6 && CompressCount(DEFAULTS, 6) == 2;
    assert Kept(DEFAULTS, ms)[0] == ms[3];
    CompactionExact(DEFAULTS, ms, summary);
  }
}
