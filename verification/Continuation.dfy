/** Answers that the model cut short: the two loops that ask it to go on. */
module Continuation {
  import opened Wrappers
  import opened Transcript

  datatype Response = Response(content: string, finish: string, calls: seq<ToolCall>)
  datatype Outcome = Answered(response: Response) | Raised

  /** An arbitrary model: the answer may depend on the number of the call and on the messages sent. */
  type Backend = (nat, seq<Message>) -> Outcome

  const PROMPT := "Resume directly, no apology, no recap. Pick up mid-thought. Break remaining work into smaller pieces."
  const EMPTY_FALLBACK := "I wasn't able to generate a response. Could you rephrase?"
  const FILTER_FALLBACK := "My response was filtered. Could you rephrase your request?"

  predicate IsSpace(c: char) {
    var n := c as int;
    9 <= n <= 13 || 28 <= n <= 32 || n == 0x85 || n == 0xA0 || n == 0x1680 || 0x2000 <= n <= 0x200A
    || n == 0x2028 || n == 0x2029 || n == 0x202F || n == 0x205F || n == 0x3000
  }

  predicate Blank(s: string) {
    forall i :: 0 <= i < |s| ==> IsSpace(s[i])
  }

  /** Being blank is a matter of single characters; among those of ASCII, these ten are. */
  lemma BlankExact(a: string, b: string)
    ensures Blank("") && (Blank(a + b) <==> Blank(a) && Blank(b))
    ensures forall c: char :: c as int < 128 ==>
      (Blank([c]) <==> c == ' ' || '\t' <= c <= '\r' || 28 <= c as int <= 31)
  {
    assert forall i :: 0 <= i < |a| ==> (a + b)[i] == a[i];
    assert forall i :: 0 <= i < |b| ==> (a + b)[|a| + i] == b[i];
    forall c: char | c as int < 128
      ensures Blank([c]) <==> c == ' ' || '\t' <= c <= '\r' || 28 <= c as int <= 31
    {
      assert [c][0] == c;
    }
  }

  datatype Repair = Repair(content: string, repaired: bool, needsContinuation: bool)

  function RepairResponse(r: Response): Repair {
    if Blank(r.content) then Repair(EMPTY_FALLBACK, true, false)
    else if r.finish == "length" then Repair(r.content, false, true)
    else if r.finish == "content_filter" then Repair(FILTER_FALLBACK, true, false)
    else Repair(r.content, false, false)
  }

  /** The text of a loop (none if the model raised) and every message list it sent. */
  datatype Result = Result(text: Option<string>, sent: seq<seq<Message>>)

  /** The same result, for a loop that had sent these lists before. */
  function After(sent: seq<seq<Message>>, r: Result): Result {
    Result(r.text, sent + r.sent)
  }

  lemma AfterOneMore(sent: seq<seq<Message>>, ask: seq<Message>, r: Result)
    ensures After(sent + [ask], r) == After(sent, After([ask], r))
    ensures After(sent, Result(r.text, [ask])) == Result(r.text, sent + [ask])
  {
    assert (sent + [ask]) + r.sent == sent + ([ask] + r.sent);
  }

  // ---- chunks ------------------------------------------------------------------------------------

  function Join(chunks: seq<string>): string {
    if chunks == [] then "" else chunks[0] + Join(chunks[1..])
  }

  function Scaffold(chunks: seq<string>): seq<Message> {
    if chunks == [] then [] else [Assistant(chunks[0], []), User(PROMPT)] + Scaffold(chunks[1..])
  }

  lemma {:induction false} JoinSnoc(chunks: seq<string>, last: string)
    ensures Join(chunks + [last]) == Join(chunks) + last
    decreases |chunks|
  {
    if chunks == [] {
      assert (chunks + [last])[1..] == [];
    } else {
      assert (chunks + [last])[1..] == chunks[1..] + [last];
      JoinSnoc(chunks[1..], last);
    }
  }

  lemma {:induction false} ScaffoldSnoc(chunks: seq<string>, last: string)
    ensures Scaffold(chunks + [last]) == Scaffold(chunks) + [Assistant(last, []), User(PROMPT)]
    decreases |chunks|
  {
    if chunks == [] {
      assert (chunks + [last])[1..] == [];
    } else {
      assert (chunks + [last])[1..] == chunks[1..] + [last];
      ScaffoldSnoc(chunks[1..], last);
    }
  }

  // ---- growing one message list ------------------------------------------------------------------

  function ContinueFrom(backend: Backend, working: seq<Message>, text: string, retries: nat, n: nat): Result
    decreases retries
  {
    if retries == 0 then Result(Some(text), [])
    else
      var ask := working + [User(PROMPT)];
      match backend(n, ask)
      case Raised => Result(None, [ask])
      case Answered(r) =>
        if r.finish != "length" then Result(Some(text + r.content), [ask])
        else
          var rest := ContinueFrom(backend, ask + [Assistant(r.content, [])], text + r.content, retries - 1, n + 1);
          Result(rest.text, [ask] + rest.sent)
  }

  /** The agent loop's way: one list and one list of chunks, both growing. */
  method ContinueTruncated(backend: Backend, retries: nat, messages: seq<Message>, first: Response, n: nat)
    returns (result: Result)
    ensures result == ContinueFrom(backend, messages + [Assistant(first.content, [])], first.content, retries, n)
  {
    var chunks := [first.content];
    var working := messages + [Assistant(first.content, [])];
    var sent: seq<seq<Message>> := [];
    ghost var whole := ContinueFrom(backend, working, first.content, retries, n);
    JoinSnoc([], first.content);
    assert [] + chunks == chunks && Join(chunks) == first.content && After([], whole) == whole;
    for attempt := 0 to retries
      invariant |sent| == attempt
      invariant whole == After(sent, ContinueFrom(backend, working, Join(chunks), retries - attempt, n + attempt))
    {
      working := working + [User(PROMPT)];
      match backend(n + attempt, working) {
        case Raised =>
          AfterOneMore(sent, working, Result(None, []));
          return Result(None, sent + [working]);
        case Answered(r) =>
          JoinSnoc(chunks, r.content);
          chunks := chunks + [r.content];
          if r.finish != "length" {
            AfterOneMore(sent, working, Result(Some(Join(chunks)), []));
            return Result(Some(Join(chunks)), sent + [working]);
          }
          var ask := working;
          working := working + [Assistant(r.content, [])];
          AfterOneMore(sent, ask, ContinueFrom(backend, working, Join(chunks), retries - attempt - 1, n + attempt + 1));
          sent := sent + [ask];
      }
    }
    return Result(Some(Join(chunks)), sent);
  }

  // ---- rebuilding the message list every time ----------------------------------------------------

  function RebuildFrom(backend: Backend, base: seq<Message>, prior: seq<string>, attempts: nat, n: nat): Result
    decreases attempts
  {
    if attempts == 0 then Result(Some(Join(prior)), [])
    else
      var call := base + Scaffold(prior);
      match backend(n, call)
      case Raised => Result(None, [call])
      case Answered(r) =>
        var repair := RepairResponse(r);
        if repair.repaired && !repair.needsContinuation then Result(Some(repair.content), [call])
        else if !repair.needsContinuation then Result(Some(Join(prior) + repair.content), [call])
        else
          var rest := RebuildFrom(backend, base, prior + [repair.content], attempts - 1, n + 1);
          Result(rest.text, [call] + rest.sent)
  }

  method BuildCall(base: seq<Message>, prior: seq<string>) returns (call: seq<Message>)
    ensures call == base + Scaffold(prior)
  {
    call := base;
    for k := 0 to |prior|
      invariant call == base + Scaffold(prior[..k])
    {
      ScaffoldSnoc(prior[..k], prior[k]);
      assert prior[..k + 1] == prior[..k] + [prior[k]];
      call := call + [Assistant(prior[k], [])];
      call := call + [User(PROMPT)];
    }
    assert prior[..|prior|] == prior;
  }

  /** The orchestrator's way. */
  method InferenceWithRepair(backend: Backend, retries: nat, messages: seq<Message>, n: nat) returns (result: Result)
    ensures result == RebuildFrom(backend, messages, [], 1 + retries, n)
  {
    var prior: seq<string> := [];
    var sent: seq<seq<Message>> := [];
    ghost var whole := RebuildFrom(backend, messages, [], 1 + retries, n);
    assert After([], whole) == whole;
    for attempt := 0 to 1 + retries
      invariant |sent| == attempt
      invariant whole == After(sent, RebuildFrom(backend, messages, prior, 1 + retries - attempt, n + attempt))
    {
      var call := BuildCall(messages, prior);
      match backend(n + attempt, call) {
        case Raised =>
          AfterOneMore(sent, call, Result(None, []));
          return Result(None, sent + [call]);
        case Answered(r) =>
          var repair := RepairResponse(r);
          if repair.repaired && !repair.needsContinuation {
            AfterOneMore(sent, call, Result(Some(repair.content), []));
            return Result(Some(repair.content), sent + [call]);
          }
          if !repair.needsContinuation {
            AfterOneMore(sent, call, Result(Some(Join(prior) + repair.content), []));
            return Result(Some(Join(prior) + repair.content), sent + [call]);
          }
          prior := prior + [repair.content];
          AfterOneMore(sent, call, RebuildFrom(backend, messages, prior, retries - attempt, n + attempt + 1));
          sent := sent + [call];
      }
    }
    return Result(Some(Join(prior)), sent);
  }

  // ---- when the two agree ------------------------------------------------------------------------

  /** The agent loop's text after a first response without tool calls. */
  function Completed(backend: Backend, base: seq<Message>, first: Response, retries: nat, n: nat): Result {
    if first.finish == "length"
    then ContinueFrom(backend, base + [Assistant(first.content, [])], first.content, retries, n)
    else Result(Some(RepairResponse(first).content), [])
  }

  /** The whole answer, first request included, if the model never calls tools. */
  function AgentAnswer(backend: Backend, base: seq<Message>, retries: nat, n: nat): Result {
    match backend(n, base)
    case Raised => Result(None, [base])
    case Answered(first) => After([base], Completed(backend, base, first, retries, n + 1))
  }

  /** The text that takes the place of everything gathered, at the first response that is blank or filtered. */
  function Fallback(backend: Backend, working: seq<Message>, retries: nat, n: nat): Option<string>
    decreases retries
  {
    if retries == 0 then None
    else
      var ask := working + [User(PROMPT)];
      match backend(n, ask)
      case Raised => None
      case Answered(r) =>
        if RepairResponse(r).repaired then Some(RepairResponse(r).content)
        else if r.finish == "length" then Fallback(backend, ask + [Assistant(r.content, [])], retries - 1, n + 1)
        else None
  }

  /** Some response is cut short without any text, and there are attempts left after it. */
  predicate BlankCut(backend: Backend, working: seq<Message>, retries: nat, n: nat)
    decreases retries
  {
    retries > 1 &&
    (var ask := working + [User(PROMPT)];
     match backend(n, ask)
     case Raised => false
     case Answered(r) =>
       r.finish == "length" && (Blank(r.content) || BlankCut(backend, ask + [Assistant(r.content, [])], retries - 1, n + 1)))
  }

  /** The same two conditions for a whole answer; a first response counts only if it is cut short. */
  function AnswerFallback(backend: Backend, base: seq<Message>, retries: nat, n: nat): Option<string> {
    match backend(n, base)
    case Raised => None
    case Answered(first) =>
      if first.finish != "length" then None
      else if Blank(first.content) then Some(EMPTY_FALLBACK)
      else Fallback(backend, base + [Assistant(first.content, [])], retries, n + 1)
  }

  predicate AnswerBlankCut(backend: Backend, base: seq<Message>, retries: nat, n: nat) {
    match backend(n, base)
    case Raised => false
    case Answered(first) =>
      first.finish == "length" && retries > 0
      && (Blank(first.content) || BlankCut(backend, base + [Assistant(first.content, [])], retries, n + 1))
  }

  lemma SameTails(head: seq<Message>, a: seq<seq<Message>>, b: seq<seq<Message>>)
    ensures [head] + a == [head] + b <==> a == b
  {
    if [head] + a == [head] + b {
      assert ([head] + a)[1..] == a && ([head] + b)[1..] == b;
    }
  }

  lemma SendsAtLeastOnce(backend: Backend, working: seq<Message>, text: string, retries: nat, n: nat)
    requires retries > 0
    ensures |ContinueFrom(backend, working, text, retries, n).sent| >= 1
  {
  }

  /** From the same point on: `prior` chunks received, and `last` after them, cut short. */
  lemma {:induction false} LoopsAgreeFrom(backend: Backend, base: seq<Message>, prior: seq<string>, last: string,
                                          retries: nat, n: nat)
    ensures var working, chunks := base + Scaffold(prior) + [Assistant(last, [])], prior + [last];
      var grown := ContinueFrom(backend, working, Join(chunks), retries, n);
      var rebuilt := RebuildFrom(backend, base, chunks, retries, n);
      var fallback := Fallback(backend, working, retries, n);
      && rebuilt.text == (if fallback.Some? then fallback else grown.text)
      && (grown.sent == rebuilt.sent <==> !BlankCut(backend, working, retries, n))
    decreases retries
  {
    if retries > 0 {
      var working, chunks := base + Scaffold(prior) + [Assistant(last, [])], prior + [last];
      var ask := working + [User(PROMPT)];
      ScaffoldSnoc(prior, last);
      assert base + Scaffold(chunks) == ask;
      if backend(n, ask).Answered? {
        var r := backend(n, ask).response;
        JoinSnoc(chunks, r.content);
        LoopsAgreeFrom(backend, base, chunks, r.content, retries - 1, n + 1);
        var next := ask + [Assistant(r.content, [])];
        var grown := ContinueFrom(backend, next, Join(chunks) + r.content, retries - 1, n + 1);
        var rebuilt := RebuildFrom(backend, base, chunks + [r.content], retries - 1, n + 1);
        SameTails(ask, grown.sent, rebuilt.sent);
        if r.finish == "length" && Blank(r.content) && retries > 1 {
          SendsAtLeastOnce(backend, next, Join(chunks) + r.content, retries - 1, n + 1);
        }
      }
    }
  }

  lemma JoinNothing(r: Response)
    ensures Join([]) + RepairResponse(r).content == RepairResponse(r).content
  {
  }

  /** For every model, with equal limits: what the rebuilding loop returns is what the growing loop returns,
      unless a response that is blank or filtered puts a fallback text in its place; and both send the same
      lists exactly if no blank response is cut short before the last attempt. */
  lemma AnswersExact(backend: Backend, base: seq<Message>, retries: nat, n: nat)
    ensures var grown, rebuilt := AgentAnswer(backend, base, retries, n), RebuildFrom(backend, base, [], 1 + retries, n);
      var fallback := AnswerFallback(backend, base, retries, n);
      && rebuilt.text == (if fallback.Some? then fallback else grown.text)
      && (rebuilt.sent == grown.sent <==> !AnswerBlankCut(backend, base, retries, n))
  {
    assert base + Scaffold([]) == base;
    if backend(n, base).Answered? && backend(n, base).response.finish == "length" {
      var first := backend(n, base).response;
      var working := base + [Assistant(first.content, [])];
      JoinSnoc([], first.content);
      assert [] + [first.content] == [first.content] && Join([first.content]) == first.content;
      LoopsAgreeFrom(backend, base, [], first.content, retries, n + 1);
      var grown := ContinueFrom(backend, working, first.content, retries, n + 1);
      var rest := RebuildFrom(backend, base, [first.content], retries, n + 1);
      SameTails(base, grown.sent, rest.sent);
      if Blank(first.content) {
        SameTails(base, grown.sent, []);
        if retries > 0 {
          SendsAtLeastOnce(backend, working, first.content, retries, n + 1);
        }
      }
    } else if backend(n, base).Answered? {
      JoinNothing(backend(n, base).response);
    }
  }

  lemma {:induction false} NoFallbackNoCut(backend: Backend, working: seq<Message>, retries: nat, n: nat)
    requires Fallback(backend, working, retries, n) == None
    ensures !BlankCut(backend, working, retries, n)
    decreases retries
  {
    if retries > 1 {
      var ask := working + [User(PROMPT)];
      match backend(n, ask)
      case Raised =>
      case Answered(r) =>
        if !RepairResponse(r).repaired && r.finish == "length" {
          NoFallbackNoCut(backend, ask + [Assistant(r.content, [])], retries - 1, n + 1);
        }
    }
  }

  /** Where every response has text and is not filtered, nothing tells the two loops apart. */
  lemma LoopsAgree(backend: Backend, base: seq<Message>, retries: nat, n: nat)
    requires AnswerFallback(backend, base, retries, n) == None
    ensures RebuildFrom(backend, base, [], 1 + retries, n) == AgentAnswer(backend, base, retries, n)
  {
    AnswersExact(backend, base, retries, n);
    if backend(n, base).Answered? && backend(n, base).response.finish == "length" {
      NoFallbackNoCut(backend, base + [Assistant(backend(n, base).response.content, [])], retries, n + 1);
    }
  }

  /** The growing loop never loses a chunk. */
  lemma {:induction false} TextIsKept(backend: Backend, working: seq<Message>, text: string, retries: nat, n: nat)
    ensures var r := ContinueFrom(backend, working, text, retries, n); r.text.Some? ==> text <= r.text.value
    decreases retries
  {
    if retries > 0 {
      var ask := working + [User(PROMPT)];
      match backend(n, ask)
      case Raised =>
      case Answered(r) => TextIsKept(backend, ask + [Assistant(r.content, [])], text + r.content, retries - 1, n + 1);
    }
  }

  lemma {:induction false} FallbackTexts(backend: Backend, working: seq<Message>, retries: nat, n: nat)
    ensures Fallback(backend, working, retries, n) in {None, Some(EMPTY_FALLBACK), Some(FILTER_FALLBACK)}
    decreases retries
  {
    if retries > 0 {
      var ask := working + [User(PROMPT)];
      match backend(n, ask)
      case Raised =>
      case Answered(r) => FallbackTexts(backend, ask + [Assistant(r.content, [])], retries - 1, n + 1);
    }
  }

  /** The texts agree exactly if there is no fallback, or if what was gathered spells the fallback out; and a
      first chunk that does not begin a fallback text rules that out. */
  lemma TextsAgreeExact(backend: Backend, base: seq<Message>, retries: nat, n: nat)
    ensures var grown, rebuilt := AgentAnswer(backend, base, retries, n), RebuildFrom(backend, base, [], 1 + retries, n);
      var fallback := AnswerFallback(backend, base, retries, n);
      && (rebuilt.text == grown.text <==> fallback.None? || grown.text == fallback)
      && (backend(n, base).Answered? && !(backend(n, base).response.content <= EMPTY_FALLBACK)
          && !(backend(n, base).response.content <= FILTER_FALLBACK) ==>
            (rebuilt.text == grown.text <==> fallback.None?))
  {
    AnswersExact(backend, base, retries, n);
    if backend(n, base).Answered? && backend(n, base).response.finish == "length" {
      var first := backend(n, base).response;
      var working := base + [Assistant(first.content, [])];
      TextIsKept(backend, working, first.content, retries, n + 1);
      FallbackTexts(backend, working, retries, n + 1);
    }
  }

  /** A model that is cut short, and then answers with this. */
  function CutThen(second: Response): Backend {
    (n, _) => Answered(if n == 0 then Response("Hello", "length", []) else second)
  }

  /** Two models on which the loops differ: one falls silent after the cut, the other is filtered. */
  lemma SilenceLosesText(base: seq<Message>, retries: nat)
    requires retries > 0
    ensures AgentAnswer(CutThen(Response("", "stop", [])), base, retries, 0).text == Some("Hello")
    ensures RebuildFrom(CutThen(Response("", "stop", [])), base, [], 1 + retries, 0).text == Some(EMPTY_FALLBACK)
    ensures AgentAnswer(CutThen(Response(" world", "content_filter", [])), base, retries, 0).text == Some("Hello world")
    ensures RebuildFrom(CutThen(Response(" world", "content_filter", [])), base, [], 1 + retries, 0).text
            == Some(FILTER_FALLBACK)
  {
    var silent, filtered := CutThen(Response("", "stop", [])), CutThen(Response(" world", "content_filter", []));
    AnswersExact(silent, base, retries, 0);
    AnswersExact(filtered, base, retries, 0);
    assert !IsSpace("Hello"[0]) && !IsSpace(" world"[1]);
    assert "Hello" + "" == "Hello" && "Hello" + " world" == "Hello world";
  }

  /** Continuation requests follow the tool-calling protocol if the list they start from does. */
  lemma {:induction false} ContinuationWellFormed(backend: Backend, working: seq<Message>, text: string, retries: nat, n: nat)
    requires WellFormed(working)
    ensures var r := ContinueFrom(backend, working, text, retries, n);
      |r.sent| <= retries && forall i :: 0 <= i < |r.sent| ==> WellFormed(r.sent[i])
    decreases retries
  {
    if retries > 0 {
      var ask := working + [User(PROMPT)];
      PlainWellFormed(User(PROMPT));
      WellFormedConcat(working, [User(PROMPT)]);
      match backend(n, ask)
      case Raised =>
      case Answered(r) =>
        PlainWellFormed(Assistant(r.content, []));
        WellFormedConcat(ask, [Assistant(r.content, [])]);
        ContinuationWellFormed(backend, ask + [Assistant(r.content, [])], text + r.content, retries - 1, n + 1);
    }
  }
}
