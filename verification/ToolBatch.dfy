/** One batch of tool calls: the concurrency-safe ones together, then the others one by one. */
module ToolBatch {
  import opened Wrappers
  import opened Transcript

  datatype ToolSpec = ToolSpec(isReadOnly: bool, isConcurrencySafe: bool)
  type Registry = map<string, ToolSpec>

  /** What executing a call returns (an error is serialised into the text).  It may depend on the calls of
      the batch that were completed before it, given by their positions. */
  type Execution = (seq<nat>, ToolCall) -> string

  /** Unknown tools count as safe; they fail when executed. */
  predicate IsSafe(registry: Registry, call: ToolCall) {
    call.name in registry ==> registry[call.name].isConcurrencySafe
  }

  /** The positions below `n` of the calls that are safe, or unsafe, in order. */
  function Positions(registry: Registry, calls: seq<ToolCall>, safe: bool, n: nat): seq<nat>
    requires n <= |calls|
  {
    if n == 0 then []
    else Positions(registry, calls, safe, n - 1) + (if IsSafe(registry, calls[n - 1]) == safe then [n - 1] else [])
  }

  function SafePositions(registry: Registry, calls: seq<ToolCall>): seq<nat> {
    Positions(registry, calls, true, |calls|)
  }

  function UnsafePositions(registry: Registry, calls: seq<ToolCall>): seq<nat> {
    Positions(registry, calls, false, |calls|)
  }

  predicate Distinct(s: seq<nat>) {
    forall i, j :: 0 <= i < j < |s| ==> s[i] != s[j]
  }

  /** `order` lists the same positions as `of`, each once: the order in which they complete. */
  ghost predicate CompletionOrder(order: seq<nat>, of: seq<nat>) {
    Distinct(order) && |order| == |of| && (forall i :: i in order <==> i in of)
  }

  /** The order in which a whole batch completes. */
  function Trace(registry: Registry, calls: seq<ToolCall>, order: seq<nat>): seq<nat> {
    order + UnsafePositions(registry, calls)
  }

  function Place(trace: seq<nat>, i: nat): (k: nat)
    ensures k <= |trace|
    ensures k < |trace| ==> trace[k] == i
    ensures i !in trace[..k]
    ensures i in trace ==> k < |trace|
  {
    if trace == [] then 0 else if trace[0] == i then 0 else 1 + Place(trace[1..], i)
  }

  /** The result of the call at position `i`, given everything that completed before it. */
  function ResultOf(call: ToolCall, execute: Execution, trace: seq<nat>, i: nat): Message {
    Tool(call.id, execute(trace[..Place(trace, i)], call))
  }

  /** The reference: one result per call, in call order. */
  function BatchResults(calls: seq<ToolCall>, execute: Execution, trace: seq<nat>): seq<Message> {
    seq(|calls|, i requires 0 <= i < |calls| => ResultOf(calls[i], execute, trace, i))
  }

  lemma BatchAnswers(calls: seq<ToolCall>, execute: Execution, trace: seq<nat>)
    ensures Answers(calls, BatchResults(calls, execute, trace))
  {
  }

  // ---- the partition -----------------------------------------------------------------------------

  lemma {:induction false} PositionsExact(registry: Registry, calls: seq<ToolCall>, safe: bool, n: nat)
    requires n <= |calls|
    ensures var ps := Positions(registry, calls, safe, n);
      && (forall i: nat :: i in ps <==> i < n && IsSafe(registry, calls[i]) == safe)
      && (forall j :: 0 <= j < |ps| ==> ps[j] < n)
      && (forall i, j :: 0 <= i < j < |ps| ==> ps[i] < ps[j])
    decreases n
  {
    if n > 0 {
      PositionsExact(registry, calls, safe, n - 1);
      var before, ps := Positions(registry, calls, safe, n - 1), Positions(registry, calls, safe, n);
      hide Positions;
      if IsSafe(registry, calls[n - 1]) == safe {
        assert ps == before + [n - 1];
      } else {
        assert ps == before;
      }
    }
  }

  lemma {:induction false} PositionsCount(registry: Registry, calls: seq<ToolCall>, n: nat)
    requires n <= |calls|
    ensures |Positions(registry, calls, true, n)| + |Positions(registry, calls, false, n)| == n
    decreases n
  {
    if n > 0 {
      PositionsCount(registry, calls, n - 1);
    }
  }

  /** The order the source promises: a call of a tool registered as unsafe runs after every other kind of call, and after
      every earlier one of its kind. */
  predicate RunsBefore(registry: Registry, calls: seq<ToolCall>, first: nat, second: nat) {
    && first < |calls| && second < |calls|
    && calls[second].name in registry && !registry[calls[second].name].isConcurrencySafe
    && (first < second || !(calls[first].name in registry && !registry[calls[first].name].isConcurrencySafe))
  }

  lemma TraceParts(registry: Registry, calls: seq<ToolCall>, order: seq<nat>, j: nat)
    requires CompletionOrder(order, SafePositions(registry, calls)) && j < |Trace(registry, calls, order)|
    ensures var i := Trace(registry, calls, order)[j];
      i < |calls| && (IsSafe(registry, calls[i]) <==> j < |order|)
  {
    PositionsExact(registry, calls, true, |calls|);
    PositionsExact(registry, calls, false, |calls|);
    var unsafe := UnsafePositions(registry, calls);
    if j < |order| {
      assert order[j] in order;
    } else {
      assert unsafe[j - |order|] in unsafe;
    }
  }

  lemma TraceOrder(registry: Registry, calls: seq<ToolCall>, order: seq<nat>, k: nat, j: nat)
    requires CompletionOrder(order, SafePositions(registry, calls))
    requires k < |Trace(registry, calls, order)| && j < |Trace(registry, calls, order)|
    ensures var trace := Trace(registry, calls, order);
      && (RunsBefore(registry, calls, trace[k], trace[j]) ==> k < j)
      && (trace[k] == trace[j] ==> k == j)
  {
    TraceParts(registry, calls, order, j);
    TraceParts(registry, calls, order, k);
    PositionsExact(registry, calls, false, |calls|);
    var trace, unsafe := Trace(registry, calls, order), UnsafePositions(registry, calls);
    if j >= |order| && k >= |order| {
      assert trace[j] == unsafe[j - |order|] && trace[k] == unsafe[k - |order|];
    }
  }

  lemma TraceCovers(registry: Registry, calls: seq<ToolCall>, order: seq<nat>, i: nat)
    requires CompletionOrder(order, SafePositions(registry, calls))
    ensures i in Trace(registry, calls, order) <==> i < |calls|
  {
    PositionsExact(registry, calls, true, |calls|);
    PositionsExact(registry, calls, false, |calls|);
    assert i in Trace(registry, calls, order) <==> i in order || i in UnsafePositions(registry, calls);
  }

  /** Whatever the completion order of the safe calls, the batch runs every call exactly once, and the
      unsafe ones after all safe ones, in input order. */
  lemma TraceIsPermutation(registry: Registry, calls: seq<ToolCall>, order: seq<nat>)
    requires CompletionOrder(order, SafePositions(registry, calls))
    ensures var trace := Trace(registry, calls, order);
      && |trace| == |calls|
      && (forall i: nat :: i in trace <==> i < |calls|)
      && Distinct(trace)
      && (forall j, k :: 0 <= j < |trace| && 0 <= k < |trace| && RunsBefore(registry, calls, trace[k], trace[j]) ==> k < j)
  {
    PositionsCount(registry, calls, |calls|);
    var trace := Trace(registry, calls, order);
    forall i: nat
      ensures i in trace <==> i < |calls|
    {
      TraceCovers(registry, calls, order, i);
    }
    forall j, k | 0 <= j < |trace| && 0 <= k < |trace|
      ensures RunsBefore(registry, calls, trace[k], trace[j]) ==> k < j
      ensures trace[k] == trace[j] ==> k == j
    {
      TraceOrder(registry, calls, order, k, j);
    }
  }

  /** In particular each unsafe call sees every safe call and every earlier unsafe call completed. */
  lemma UnsafeCallsRunLast(registry: Registry, calls: seq<ToolCall>, order: seq<nat>, i: nat, earlier: nat)
    requires CompletionOrder(order, SafePositions(registry, calls))
    requires RunsBefore(registry, calls, earlier, i)
    ensures var trace := Trace(registry, calls, order); earlier in trace[..Place(trace, i)]
  {
    TraceIsPermutation(registry, calls, order);
    var trace := Trace(registry, calls, order);
    assert i in trace && earlier in trace;
    var j, k := Place(trace, i), Place(trace, earlier);
    assert k < j;
    assert trace[..j][k] == earlier;
  }

  lemma {:induction false} PlaceOf(trace: seq<nat>, k: nat)
    requires Distinct(trace) && k < |trace|
    ensures Place(trace, trace[k]) == k
    decreases k
  {
    if k > 0 {
      assert trace[1..][k - 1] == trace[k] && trace[0] != trace[k];
      PlaceOf(trace[1..], k - 1);
    }
  }

  /** Each result is what executing its own call returned, name and arguments included, when exactly the calls before it
      in the trace had completed. */
  lemma EachResultIsItsOwn(registry: Registry, calls: seq<ToolCall>, execute: Execution, order: seq<nat>, k: nat)
    requires CompletionOrder(order, SafePositions(registry, calls)) && k < |calls|
    ensures var trace := Trace(registry, calls, order);
      && |trace| == |calls| && trace[k] < |calls|
      && BatchResults(calls, execute, trace)[trace[k]] == Tool(calls[trace[k]].id, execute(trace[..k], calls[trace[k]]))
  {
    TraceIsPermutation(registry, calls, order);
    var trace := Trace(registry, calls, order);
    assert trace[k] in trace;
    PlaceOf(trace, k);
  }

  /** The execution in which the call at position `i` returns `contents[i]`. */
  function Replaying(trace: seq<nat>, contents: seq<string>): Execution {
    (done, call) => if |done| < |trace| && trace[|done|] < |contents| then contents[trace[|done|]] else ""
  }

  /** Whatever the calls of a batch return, and however they influence each other while they run at the same time:
      some execution in order of completion returns it. */
  lemma EveryOutcomeCovered(registry: Registry, calls: seq<ToolCall>, order: seq<nat>, contents: seq<string>)
    requires CompletionOrder(order, SafePositions(registry, calls)) && |contents| == |calls|
    ensures var trace := Trace(registry, calls, order);
      forall i :: 0 <= i < |calls| ==>
        BatchResults(calls, Replaying(trace, contents), trace)[i] == Tool(calls[i].id, contents[i])
  {
    TraceIsPermutation(registry, calls, order);
    var trace := Trace(registry, calls, order);
    forall i | 0 <= i < |calls|
      ensures BatchResults(calls, Replaying(trace, contents), trace)[i] == Tool(calls[i].id, contents[i])
    {
      assert i in trace;
      var k := Place(trace, i);
      assert |trace[..k]| == k && trace[k] == i;
    }
  }

  // ---- the batch as executed ---------------------------------------------------------------------

  function IndexIn(s: seq<nat>, i: nat): (j: nat)
    requires i in s
    ensures j < |s| && s[j] == i
  {
    if s[0] == i then 0 else 1 + IndexIn(s[1..], i)
  }

  /** `gather`: the children complete in `order`, each into the slot of its argument. */
  method Gather(calls: seq<ToolCall>, execute: Execution, safe: seq<nat>, order: seq<nat>) returns (gathered: seq<Message>)
    requires CompletionOrder(order, safe) && Distinct(safe) && (forall j :: 0 <= j < |safe| ==> safe[j] < |calls|)
    ensures |gathered| == |safe|
    ensures forall j :: 0 <= j < |safe| ==> gathered[j] == ResultOf(calls[safe[j]], execute, order, safe[j])
  {
    var slots: array<Option<Message>> := new Option<Message>[|safe|](_ => None);
    for k := 0 to |order|
      invariant forall j :: 0 <= j < |safe| ==>
        slots[j] == if safe[j] in order[..k] then Some(ResultOf(calls[safe[j]], execute, order, safe[j])) else None
    {
      var i := order[k];
      assert i in safe;
      var j := IndexIn(safe, i);
      PlaceOf(order, k);
      slots[j] := Some(Tool(calls[i].id, execute(order[..k], calls[i])));
      assert order[..k + 1] == order[..k] + [i];
    }
    assert order[..|order|] == order;
    forall j | 0 <= j < |safe|
      ensures slots[j] == Some(ResultOf(calls[safe[j]], execute, order, safe[j]))
    {
      assert safe[j] in safe;
    }
    gathered := seq(|safe|, j requires 0 <= j < |safe| && j < slots.Length && slots[j].Some? reads slots => slots[j].value);
  }

  const MISSING := "Internal error: tool dispatch produced no result"

  /** Which slots are filled, and with what. */
  predicate Filled(calls: seq<ToolCall>, execute: Execution, trace: seq<nat>, slots: seq<Option<Message>>, done: seq<nat>) {
    && |slots| == |calls|
    && (forall i :: 0 <= i < |calls| ==>
          slots[i] == if i in done then Some(ResultOf(calls[i], execute, trace, i)) else None)
  }

  lemma {:induction false} PlaceInPrefix(a: seq<nat>, b: seq<nat>, i: nat)
    requires i in a
    ensures Place(a + b, i) == Place(a, i)
    ensures (a + b)[..Place(a, i)] == a[..Place(a, i)]
    decreases |a|
  {
    if a[0] != i {
      assert (a + b)[1..] == a[1..] + b;
      PlaceInPrefix(a[1..], b, i);
    }
  }

  lemma FillOne(calls: seq<ToolCall>, execute: Execution, trace: seq<nat>, slots: seq<Option<Message>>,
                done: seq<nat>, i: nat)
    requires Filled(calls, execute, trace, slots, done) && i < |calls|
    ensures Filled(calls, execute, trace, slots[i := Some(ResultOf(calls[i], execute, trace, i))], done + [i])
  {
  }

  /** The concurrent part of the trace decides what a safe call sees. */
  lemma SameInPrefix(call: ToolCall, execute: Execution, safe: seq<nat>, order: seq<nat>, trace: seq<nat>, j: nat)
    requires CompletionOrder(order, safe) && order <= trace && j < |safe|
    ensures ResultOf(call, execute, order, safe[j]) == ResultOf(call, execute, trace, safe[j])
  {
    assert safe[j] in safe && safe[j] in order;
    assert trace == order + trace[|order|..];
    PlaceInPrefix(order, trace[|order|..], safe[j]);
  }

  /** `zip(safe_indices, safe_results)` */
  method PlaceGathered(calls: seq<ToolCall>, execute: Execution, safe: seq<nat>, order: seq<nat>, gathered: seq<Message>,
                       ghost trace: seq<nat>)
    returns (slots: seq<Option<Message>>)
    requires CompletionOrder(order, safe) && |gathered| == |safe| && order <= trace
    requires forall j :: 0 <= j < |safe| ==> safe[j] < |calls|
    requires forall j :: 0 <= j < |safe| ==>
      gathered[j] == ResultOf(calls[safe[j]], execute, order, safe[j])
    ensures Filled(calls, execute, trace, slots, order)
  {
    hide ResultOf;
    slots := seq(|calls|, _ => None);
    for j := 0 to |safe|
      invariant Filled(calls, execute, trace, slots, safe[..j])
    {
      var i := safe[j];
      SameInPrefix(calls[i], execute, safe, order, trace, j);
      FillOne(calls, execute, trace, slots, safe[..j], i);
      assert safe[..j + 1] == safe[..j] + [i];
      slots := slots[i := Some(gathered[j])];
    }
    assert safe[..|safe|] == safe;
  }

  /** The sequential tail. */
  method RunOneByOne(calls: seq<ToolCall>, execute: Execution, order: seq<nat>, unsafe: seq<nat>,
                     filled: seq<Option<Message>>, ghost trace: seq<nat>)
    returns (slots: seq<Option<Message>>)
    requires trace == order + unsafe && Distinct(trace) && (forall j :: 0 <= j < |unsafe| ==> unsafe[j] < |calls|)
    requires Filled(calls, execute, trace, filled, order)
    ensures Filled(calls, execute, trace, slots, trace)
  {
    slots := filled;
    assert order + unsafe[..0] == order;
    for j := 0 to |unsafe|
      invariant Filled(calls, execute, trace, slots, order + unsafe[..j])
    {
      var i := unsafe[j];
      assert trace[|order| + j] == i && trace[..|order| + j] == order + unsafe[..j];
      PlaceOf(trace, |order| + j);
      FillOne(calls, execute, trace, slots, order + unsafe[..j], i);
      assert order + unsafe[..j + 1] == order + unsafe[..j] + [i];
      slots := slots[i := Some(Tool(calls[i].id, execute(order + unsafe[..j], calls[i])))];
    }
    assert order + unsafe[..|unsafe|] == trace;
  }

  method PartitionCalls(registry: Registry, calls: seq<ToolCall>) returns (safe: seq<nat>, unsafe: seq<nat>)
    ensures safe == SafePositions(registry, calls) && unsafe == UnsafePositions(registry, calls)
  {
    safe, unsafe := [], [];
    for i := 0 to |calls|
      invariant safe == Positions(registry, calls, true, i) && unsafe == Positions(registry, calls, false, i)
    {
      if calls[i].name !in registry || registry[calls[i].name].isConcurrencySafe {
        safe := safe + [i];
      } else {
        unsafe := unsafe + [i];
      }
    }
  }

  /** Every call gets its own result, at its own place; the placeholder for an empty slot is never used. */
  method ExecuteToolCalls(registry: Registry, calls: seq<ToolCall>, execute: Execution, order: seq<nat>)
    returns (results: seq<Message>)
    requires CompletionOrder(order, SafePositions(registry, calls))
    ensures results == BatchResults(calls, execute, Trace(registry, calls, order))
  {
    var safe, unsafe := PartitionCalls(registry, calls);
    PositionsExact(registry, calls, true, |calls|);
    PositionsExact(registry, calls, false, |calls|);
    TraceIsPermutation(registry, calls, order);
    ghost var trace := Trace(registry, calls, order);

    var gathered := Gather(calls, execute, safe, order);
    var slots := PlaceGathered(calls, execute, safe, order, gathered, trace);
    slots := RunOneByOne(calls, execute, order, unsafe, slots, trace);

    forall i | 0 <= i < |calls|
      ensures slots[i] == Some(ResultOf(calls[i], execute, trace, i))
    {
      assert i in trace;
    }
    results := seq(|calls|, i requires 0 <= i < |calls| && |slots| == |calls| =>
      if slots[i].Some? then slots[i].value else Tool(calls[i].id, MISSING));
  }
}
