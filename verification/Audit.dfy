/** The audit tables: batched message rows, and replayed tool-call rows. */
module AuditModel {
  type MessageId = string

  datatype DeliveryStatus = Delivered | Error | Timeout

  /** `routing` stands for the columns that are copied from the message unchanged. */
  datatype MessageRow = MessageRow(routing: string, payload: string, payloadSize: nat, status: DeliveryStatus)

  /** An item of the write queue. */
  datatype Entry =
    | Insert(id: MessageId, row: MessageRow)
    | Update(id: MessageId, status: DeliveryStatus)

  type Table = map<MessageId, MessageRow>

  /** One entry in a transaction of its own.  A second insert of an id is an integrity error, and an
      update of an absent id matches no row. */
  function Apply(t: Table, e: Entry): Table {
    match e
    case Insert(id, row) => if id in t then t else t[id := row]
    case Update(id, status) => if id in t then t[id := t[id].(status := status)] else t
  }

  /** The reference: entries one by one, in queue order. */
  function ApplyAll(t: Table, es: seq<Entry>): Table
    decreases |es|
  {
    if es == [] then t else ApplyAll(Apply(t, es[0]), es[1..])
  }

  function Inserts(es: seq<Entry>): seq<Entry> {
    if es == [] then [] else (if es[0].Insert? then [es[0]] else []) + Inserts(es[1..])
  }

  function Updates(es: seq<Entry>): seq<Entry> {
    if es == [] then [] else (if es[0].Update? then [es[0]] else []) + Updates(es[1..])
  }

  /** Every id is inserted at most once, and none of them is in the table yet. */
  predicate Fresh(t: Table, es: seq<Entry>) {
    && (forall i :: 0 <= i < |es| && es[i].Insert? ==> es[i].id !in t)
    && (forall i, j :: 0 <= i < j < |es| && es[i].Insert? && es[j].Insert? ==> es[i].id != es[j].id)
  }

  /** One transaction: all inserts, then all updates; an integrity error rolls the whole batch back. */
  function ApplyBatch(t: Table, batch: seq<Entry>): Table {
    if Fresh(t, batch) then ApplyAll(ApplyAll(t, Inserts(batch)), Updates(batch)) else t
  }

  function ApplyBatches(t: Table, batches: seq<seq<Entry>>): Table
    decreases |batches|
  {
    if batches == [] then t else ApplyBatches(ApplyBatch(t, batches[0]), batches[1..])
  }

  function Flatten(batches: seq<seq<Entry>>): seq<Entry> {
    if batches == [] then [] else batches[0] + Flatten(batches[1..])
  }

  // ---- tool-call rows ----------------------------------------------------------------------------

  /** A row id as validated on the wire: never empty. */
  type RowId = s: string | s != "" witness "r"

  datatype ToolCallItem = ToolCallItem(id: RowId, body: string)
  datatype ToolCallRow = ToolCallRow(workflow: string, parent: string, agent: string, role: string, body: string)
  datatype AuditFlush = AuditFlush(workflow: string, parent: string, agent: string, role: string, calls: seq<ToolCallItem>)

  type ToolTable = map<RowId, ToolCallRow>

  function RowOf(flush: AuditFlush, item: ToolCallItem): ToolCallRow {
    ToolCallRow(flush.workflow, flush.parent, flush.agent, flush.role, item.body)
  }

  /** Inserting a row; a primary-key collision leaves the existing one. */
  function InsertRow(t: ToolTable, id: RowId, row: ToolCallRow): ToolTable {
    if id in t then t else t[id := row]
  }

  datatype Keyed = Keyed(id: RowId, row: ToolCallRow)

  function RowsOf(flush: AuditFlush, n: nat): seq<Keyed>
    requires n <= |flush.calls|
  {
    seq(n, i requires 0 <= i < n => Keyed(flush.calls[i].id, RowOf(flush, flush.calls[i])))
  }

  function InsertRows(t: ToolTable, rows: seq<Keyed>): ToolTable
    decreases |rows|
  {
    if rows == [] then t else InsertRows(InsertRow(t, rows[0].id, rows[0].row), rows[1..])
  }

  /** One delivery of a flush, of which the first `n` rows were written before it ended. */
  datatype Attempt = Attempt(flush: AuditFlush, n: nat)

  predicate ValidAttempts(attempts: seq<Attempt>) {
    forall i :: 0 <= i < |attempts| ==> attempts[i].n <= |attempts[i].flush.calls|
  }

  /** Every row offered to the table, over all deliveries, in order. */
  function Offered(attempts: seq<Attempt>): seq<Keyed>
    requires ValidAttempts(attempts)
  {
    if attempts == [] then [] else RowsOf(attempts[0].flush, attempts[0].n) + Offered(attempts[1..])
  }

  /** The table after a history of deliveries, each processed row by row. */
  function Ingest(t: ToolTable, attempts: seq<Attempt>): ToolTable
    requires ValidAttempts(attempts)
    decreases |attempts|
  {
    if attempts == [] then t
    else Ingest(InsertRows(t, RowsOf(attempts[0].flush, attempts[0].n)), attempts[1..])
  }
}

module AuditProofs {
  import opened Wrappers
  import opened AuditModel

  // ---- one row at a time -------------------------------------------------------------------------

  function Lookup(t: Table, id: MessageId): Option<MessageRow> {
    if id in t then Some(t[id]) else None
  }

  function Overlay(r: Option<MessageRow>, status: Option<DeliveryStatus>): Option<MessageRow> {
    if r.Some? && status.Some? then Some(r.value.(status := status.value)) else r
  }

  function RowStep(r: Option<MessageRow>, e: Entry, id: MessageId): Option<MessageRow> {
    if e.id != id then r
    else if e.Insert? then (if r.Some? then r else Some(e.row))
    else Overlay(r, Some(e.status))
  }

  /** What the entries do to the row of one id. */
  function RowAfter(r: Option<MessageRow>, es: seq<Entry>, id: MessageId): Option<MessageRow>
    decreases |es|
  {
    if es == [] then r else RowAfter(RowStep(r, es[0], id), es[1..], id)
  }

  /** The status of the last update of `id`. */
  function LastStatus(es: seq<Entry>, id: MessageId): Option<DeliveryStatus>
    decreases |es|
  {
    if es == [] then None
    else if LastStatus(es[1..], id).Some? then LastStatus(es[1..], id)
    else if es[0].Update? && es[0].id == id then Some(es[0].status)
    else None
  }

  /** The row of the first insert of `id`. */
  function FirstInsert(es: seq<Entry>, id: MessageId): Option<MessageRow>
    decreases |es|
  {
    if es == [] then None
    else if es[0].Insert? && es[0].id == id then Some(es[0].row)
    else FirstInsert(es[1..], id)
  }

  lemma {:induction false} Pointwise(t: Table, es: seq<Entry>, id: MessageId)
    ensures Lookup(ApplyAll(t, es), id) == RowAfter(Lookup(t, id), es, id)
    decreases |es|
  {
    if es != [] {
      Pointwise(Apply(t, es[0]), es[1..], id);
    }
  }

  lemma SameRowsSameTable(t: Table, u: Table)
    requires forall id :: Lookup(t, id) == Lookup(u, id)
    ensures t == u
  {
    forall id
      ensures id in t <==> id in u
      ensures id in t ==> t[id] == u[id]
    {
      assert Lookup(t, id) == Lookup(u, id);
    }
  }

  lemma {:induction false} LastStatusConcat(a: seq<Entry>, b: seq<Entry>, id: MessageId)
    ensures LastStatus(a + b, id) == if LastStatus(b, id).Some? then LastStatus(b, id) else LastStatus(a, id)
    decreases |a|
  {
    if a == [] {
      assert a + b == b;
    } else {
      assert (a + b)[1..] == a[1..] + b;
      LastStatusConcat(a[1..], b, id);
    }
  }

  lemma {:induction false} ApplyAllConcat(t: Table, a: seq<Entry>, b: seq<Entry>)
    ensures ApplyAll(t, a + b) == ApplyAll(ApplyAll(t, a), b)
    decreases |a|
  {
    if a == [] {
      assert a + b == b;
    } else {
      assert (a + b)[1..] == a[1..] + b;
      ApplyAllConcat(Apply(t, a[0]), a[1..], b);
    }
  }

  lemma {:induction false} RowAfterConcat(r: Option<MessageRow>, a: seq<Entry>, b: seq<Entry>, id: MessageId)
    ensures RowAfter(r, a + b, id) == RowAfter(RowAfter(r, a, id), b, id)
    decreases |a|
  {
    if a == [] {
      assert a + b == b;
    } else {
      assert (a + b)[1..] == a[1..] + b;
      RowAfterConcat(RowStep(r, a[0], id), a[1..], b, id);
    }
  }

  /** A row that exists keeps everything but its status, which is the last one given. */
  lemma {:induction false} ExistingRow(r: Option<MessageRow>, es: seq<Entry>, id: MessageId)
    requires r.Some? || FirstInsert(es, id) == None
    ensures RowAfter(r, es, id) == Overlay(r, LastStatus(es, id))
    decreases |es|
  {
    if es != [] {
      ExistingRow(RowStep(r, es[0], id), es[1..], id);
    }
  }

  lemma {:induction false} RowAfterInserts(r: Option<MessageRow>, es: seq<Entry>, id: MessageId)
    ensures RowAfter(r, Inserts(es), id) == if r.Some? then r else FirstInsert(es, id)
    decreases |es|
  {
    if es != [] {
      var rest := Inserts(es[1..]);
      if es[0].Insert? {
        assert Inserts(es)[1..] == rest;
        RowAfterInserts(RowStep(r, es[0], id), es[1..], id);
      } else {
        assert Inserts(es) == rest;
        RowAfterInserts(r, es[1..], id);
      }
    }
  }

  lemma {:induction false} RowAfterUpdates(r: Option<MessageRow>, es: seq<Entry>, id: MessageId)
    ensures RowAfter(r, Updates(es), id) == Overlay(r, LastStatus(es, id))
    decreases |es|
  {
    if es != [] {
      var rest := Updates(es[1..]);
      if es[0].Update? {
        assert Updates(es)[1..] == rest;
        RowAfterUpdates(RowStep(r, es[0], id), es[1..], id);
      } else {
        assert Updates(es) == rest;
        RowAfterUpdates(r, es[1..], id);
      }
    }
  }

  /** A batch gives an inserted row the last status found anywhere in the batch, even before the insert. */
  lemma BatchRow(t: Table, b: seq<Entry>, id: MessageId)
    requires Fresh(t, b)
    ensures Lookup(ApplyBatch(t, b), id)
         == Overlay(if id in t then Some(t[id]) else FirstInsert(b, id), LastStatus(b, id))
  {
    Pointwise(t, Inserts(b), id);
    RowAfterInserts(Lookup(t, id), b, id);
    Pointwise(ApplyAll(t, Inserts(b)), Updates(b), id);
    RowAfterUpdates(Lookup(ApplyAll(t, Inserts(b)), id), b, id);
  }

  lemma {:induction false} NoEarlierInsert(es: seq<Entry>, i: nat)
    requires i < |es| && es[i].Insert?
    requires forall j :: 0 <= j < i && es[j].Insert? ==> es[j].id != es[i].id
    ensures FirstInsert(es[..i], es[i].id) == None && FirstInsert(es, es[i].id) == Some(es[i].row)
    decreases |es|
  {
    if i > 0 {
      assert es[1..][i-1] == es[i];
      forall j | 0 <= j < i - 1 && es[1..][j].Insert?
        ensures es[1..][j].id != es[i].id
      {
        assert es[j + 1].Insert?;
      }
      NoEarlierInsert(es[1..], i - 1);
      assert es[..i][1..] == es[1..][..i-1];
    }
  }

  /** One by one, an inserted row gets the last status given to it after its insert. */
  lemma SequentialRow(t: Table, es: seq<Entry>, i: nat)
    requires Fresh(t, es) && i < |es| && es[i].Insert?
    ensures FirstInsert(es, es[i].id) == Some(es[i].row)
    ensures Lookup(ApplyAll(t, es), es[i].id) == Overlay(Some(es[i].row), LastStatus(es[i+1..], es[i].id))
  {
    var id := es[i].id;
    NoEarlierInsert(es, i);
    Pointwise(t, es, id);
    assert es == es[..i] + es[i..] && es[i..][1..] == es[i+1..];
    RowAfterConcat(None, es[..i], es[i..], id);
    ExistingRow(None, es[..i], id);
    ExistingRow(Some(es[i].row), es[i+1..], id);
  }

  lemma {:induction false} NeverInserted(es: seq<Entry>, id: MessageId)
    requires forall j :: 0 <= j < |es| && es[j].Insert? ==> es[j].id != id
    ensures FirstInsert(es, id) == None
    decreases |es|
  {
    if es != [] {
      NeverInserted(es[1..], id);
    }
  }

  /** Where the first insert is. */
  lemma {:induction false} InsertIndex(es: seq<Entry>, id: MessageId) returns (i: nat)
    requires FirstInsert(es, id).Some?
    ensures i < |es| && es[i].Insert? && es[i].id == id && Some(es[i].row) == FirstInsert(es, id)
    decreases |es|
  {
    if es[0].Insert? && es[0].id == id {
      i := 0;
    } else {
      i := InsertIndex(es[1..], id);
      i := i + 1;
    }
  }

  // ---- when batching is harmless -----------------------------------------------------------------

  /** No insert is followed by silence after an earlier update that would have changed it: its id is
      updated again later, or was not updated before, or was last given the status it is inserted with. */
  predicate OrderSafeAt(es: seq<Entry>, i: nat)
    requires i < |es| && es[i].Insert?
  {
    || LastStatus(es[i+1..], es[i].id).Some?
    || LastStatus(es[..i], es[i].id) == None
    || LastStatus(es[..i], es[i].id) == Some(es[i].row.status)
  }

  predicate OrderSafe(es: seq<Entry>) {
    forall i :: 0 <= i < |es| && es[i].Insert? ==> OrderSafeAt(es, i)
  }

  /** The statuses given to an inserted id before and after its insert. */
  lemma StatusesAround(b: seq<Entry>, rest: seq<Entry>, i: nat)
    requires i < |b| && b[i].Insert?
    ensures var id, es := b[i].id, b + rest;
      && es[i] == b[i] && es[..i] == b[..i]
      && LastStatus(es[i+1..], id) == (if LastStatus(rest, id).Some? then LastStatus(rest, id) else LastStatus(b[i+1..], id))
      && LastStatus(b, id) == (if LastStatus(b[i+1..], id).Some? then LastStatus(b[i+1..], id) else LastStatus(b[..i], id))
  {
    var id, es := b[i].id, b + rest;
    assert es[..i] == b[..i] && es[i+1..] == b[i+1..] + rest;
    LastStatusConcat(b[i+1..], rest, id);
    assert b == b[..i] + b[i..] && b[i..][1..] == b[i+1..];
    LastStatusConcat(b[..i], b[i..], id);
  }

  /** An inserted row, in the batch and one by one. */
  lemma InsertedRows(t: Table, b: seq<Entry>, i: nat)
    requires Fresh(t, b) && i < |b| && b[i].Insert?
    ensures var id := b[i].id;
      && Lookup(ApplyBatch(t, b), id) == Overlay(Some(b[i].row), LastStatus(b, id))
      && Lookup(ApplyAll(t, b), id) == Overlay(Some(b[i].row), LastStatus(b[i+1..], id))
  {
    BatchRow(t, b, b[i].id);
    SequentialRow(t, b, i);
  }

  /** At one insert, the batch and the sequential result agree if and only if the place is order-safe. */
  lemma InsertExact(t: Table, b: seq<Entry>, rest: seq<Entry>, i: nat)
    requires Fresh(t, b) && i < |b| && b[i].Insert?
    ensures var id := b[i].id;
      var one, other := Lookup(ApplyBatch(t, b), id), Lookup(ApplyAll(t, b), id);
      && one.Some? && other.Some?
      && Overlay(one, Some(Timeout)) == Overlay(other, Some(Timeout))
      && (LastStatus(rest, id) == None ==> (one == other <==> OrderSafeAt(b + rest, i)))
  {
    hide LastStatus, ApplyBatch, ApplyAll, Fresh;
    InsertedRows(t, b, i);
    StatusesAround(b, rest, i);
  }

  /** Two tables that differ at most in the status of rows that are still going to be updated. */
  predicate AlikeAt(t: Table, u: Table, rest: seq<Entry>, id: MessageId) {
    && (id in t <==> id in u)
    && (if LastStatus(rest, id).Some?
        then Overlay(Lookup(t, id), Some(Timeout)) == Overlay(Lookup(u, id), Some(Timeout))
        else Lookup(t, id) == Lookup(u, id))
  }

  lemma AlikeConverge(t: Table, u: Table, rest: seq<Entry>)
    requires forall id :: AlikeAt(t, u, rest, id)
    ensures ApplyAll(t, rest) == ApplyAll(u, rest)
  {
    forall id
      ensures Lookup(ApplyAll(t, rest), id) == Lookup(ApplyAll(u, rest), id)
    {
      assert AlikeAt(t, u, rest, id);
      Pointwise(t, rest, id);
      Pointwise(u, rest, id);
      if id in t {
        ExistingRow(Lookup(t, id), rest, id);
        ExistingRow(Lookup(u, id), rest, id);
      }
    }
    SameRowsSameTable(ApplyAll(t, rest), ApplyAll(u, rest));
  }

  /** After a batch the table is like the sequential one, given what is still to come. */
  lemma BatchAlike(t: Table, b: seq<Entry>, rest: seq<Entry>, id: MessageId)
    requires Fresh(t, b) && OrderSafe(b + rest)
    ensures AlikeAt(ApplyBatch(t, b), ApplyAll(t, b), rest, id)
  {
    if FirstInsert(b, id).Some? {
      var i := InsertIndex(b, id);
      assert (b + rest)[i] == b[i];
      InsertExact(t, b, rest, i);
    } else {
      BatchRow(t, b, id);
      Pointwise(t, b, id);
      ExistingRow(Lookup(t, id), b, id);
    }
  }

  lemma SafeTail(b: seq<Entry>, rest: seq<Entry>)
    requires OrderSafe(b + rest)
    ensures OrderSafe(rest)
  {
    forall i | 0 <= i < |rest| && rest[i].Insert?
      ensures OrderSafeAt(rest, i)
    {
      var es := b + rest;
      assert es[|b| + i] == rest[i] && es[..|b| + i] == b + rest[..i] && es[|b| + i + 1..] == rest[i+1..];
      assert OrderSafeAt(es, |b| + i);
      LastStatusConcat(b, rest[..i], rest[i].id);
    }
  }

  lemma FreshParts(t: Table, b: seq<Entry>, rest: seq<Entry>)
    requires Fresh(t, b + rest)
    ensures Fresh(t, b) && Fresh(ApplyBatch(t, b), rest)
  {
    var es := b + rest;
    assert Fresh(t, b) by {
      assert forall i :: 0 <= i < |b| ==> es[i] == b[i];
    }
    forall i | 0 <= i < |rest| && rest[i].Insert?
      ensures rest[i].id !in ApplyBatch(t, b)
    {
      assert es[|b| + i] == rest[i];
      BatchRow(t, b, rest[i].id);
      assert forall k :: 0 <= k < |b| ==> es[k] == b[k];
      NeverInserted(b, rest[i].id);
    }
    forall i, j | 0 <= i < j < |rest| && rest[i].Insert? && rest[j].Insert?
      ensures rest[i].id != rest[j].id
    {
      assert es[|b| + i] == rest[i] && es[|b| + j] == rest[j];
    }
  }

  /** Any cutting into batches of an order-safe queue means the same as one entry after the other. */
  lemma {:induction false} BatchingKeepsMeaning(t: Table, batches: seq<seq<Entry>>)
    requires Fresh(t, Flatten(batches)) && OrderSafe(Flatten(batches))
    ensures ApplyBatches(t, batches) == ApplyAll(t, Flatten(batches))
    decreases |batches|
  {
    if batches != [] {
      var b, rest := batches[0], Flatten(batches[1..]);
      FreshParts(t, b, rest);
      SafeTail(b, rest);
      BatchingKeepsMeaning(ApplyBatch(t, b), batches[1..]);
      forall id
        ensures AlikeAt(ApplyBatch(t, b), ApplyAll(t, b), rest, id)
      {
        BatchAlike(t, b, rest, id);
      }
      AlikeConverge(ApplyBatch(t, b), ApplyAll(t, b), rest);
      ApplyAllConcat(t, b, rest);
    }
  }

  lemma OneBatch(t: Table, es: seq<Entry>)
    ensures Flatten([es]) == es && ApplyBatches(t, [es]) == ApplyBatch(t, es)
  {
    assert [es][1..] == [];
    assert es + [] == es;
  }

  /** Every cutting into batches means the same as one entry after the other. */
  ghost predicate CuttingsAgree(t: Table, es: seq<Entry>) {
    forall batches :: Flatten(batches) == es ==> ApplyBatches(t, batches) == ApplyAll(t, es)
  }

  /** Without integrity errors: batching is harmless for every cutting if and only if the queue is order-safe. */
  lemma FreshBatchingExact(t: Table, es: seq<Entry>)
    requires Fresh(t, es)
    ensures CuttingsAgree(t, es) <==> OrderSafe(es)
  {
    if OrderSafe(es) {
      forall batches | Flatten(batches) == es
        ensures ApplyBatches(t, batches) == ApplyAll(t, es)
      {
        BatchingKeepsMeaning(t, batches);
      }
    } else {
      var i :| 0 <= i < |es| && es[i].Insert? && !OrderSafeAt(es, i);
      InsertExact(t, es, [], i);
      assert es + [] == es;
      OneBatch(t, es);
    }
  }

  // ---- repeated ids ------------------------------------------------------------------------------

  /** Every entry in a batch of its own. */
  function Singles(es: seq<Entry>): seq<seq<Entry>> {
    if es == [] then [] else Singles(es[..|es|-1]) + [[es[|es|-1]]]
  }

  lemma {:induction false} BatchesSnoc(t: Table, batches: seq<seq<Entry>>, last: seq<Entry>)
    ensures ApplyBatches(t, batches + [last]) == ApplyBatch(ApplyBatches(t, batches), last)
    ensures Flatten(batches + [last]) == Flatten(batches) + last
    decreases |batches|
  {
    hide ApplyBatch;
    if batches == [] {
      assert batches + [last] == [last];
      assert Flatten([last]) == last;
    } else {
      assert (batches + [last])[1..] == batches[1..] + [last];
      BatchesSnoc(ApplyBatch(t, batches[0]), batches[1..], last);
    }
  }

  lemma SingleParts(e: Entry)
    ensures Inserts([e]) == (if e.Insert? then [e] else []) && Updates([e]) == (if e.Update? then [e] else [])
  {
    assert [e][1..] == [];
    assert Inserts([]) == [] && Updates([]) == [];
  }

  lemma SingleBatch(t: Table, e: Entry)
    ensures ApplyBatch(t, [e]) == Apply(t, e) == ApplyAll(t, [e])
  {
    assert [e][1..] == [] && [e][0] == e;
    SingleParts(e);
    assert ApplyAll(t, []) == t;
    assert ApplyAll(t, [e]) == ApplyAll(Apply(t, e), []) == Apply(t, e);
  }

  /** The reference is itself a cutting: entries one by one are batches of one. */
  lemma {:induction false} SinglesApply(t: Table, es: seq<Entry>)
    ensures Flatten(Singles(es)) == es && ApplyBatches(t, Singles(es)) == ApplyAll(t, es)
    decreases |es|
  {
    if es != [] {
      var init, last := es[..|es|-1], es[|es|-1];
      assert init + [last] == es;
      SinglesApply(t, init);
      BatchesSnoc(t, Singles(init), [last]);
      SingleBatch(ApplyAll(t, init), last);
      ApplyAllConcat(t, init, [last]);
      hide ApplyBatch, Apply, ApplyAll, ApplyBatches;
    }
  }

  /** Nothing is inserted that is not there already. */
  predicate RepeatsOnly(t: Table, es: seq<Entry>) {
    forall i :: 0 <= i < |es| && es[i].Insert? ==> es[i].id in t
  }

  predicate InsertFollows(es: seq<Entry>, i: nat) {
    exists j :: i <= j < |es| && es[j].Insert?
  }

  /** An update that is the last one of its id to take effect, in some cutting: a later batch may be rolled back. */
  predicate LastWord(es: seq<Entry>, i: nat)
    requires i < |es|
  {
    es[i].Update? && (InsertFollows(es, i) || LastStatus(es[i+1..], es[i].id) == None)
  }

  /** A queue that can have no effect: it only repeats inserts, and every update that may have the last word about a row
      gives it the status it has. */
  predicate Inert(t: Table, es: seq<Entry>) {
    && RepeatsOnly(t, es)
    && (forall i :: 0 <= i < |es| && LastWord(es, i) && es[i].id in t ==> t[es[i].id].status == es[i].status)
  }

  /** The last update of an id, if there is one. */
  lemma {:induction false} LastUpdate(es: seq<Entry>, id: MessageId) returns (i: nat)
    requires LastStatus(es, id).Some?
    ensures i < |es| && es[i] == Update(id, LastStatus(es, id).value) && LastStatus(es[i+1..], id) == None
    decreases |es|
  {
    if LastStatus(es[1..], id).Some? {
      i := LastUpdate(es[1..], id);
      assert es[1..][i+1..] == es[i+2..];
      i := i + 1;
    } else {
      i := 0;
    }
  }

  lemma InertOneByOne(t: Table, es: seq<Entry>)
    requires Inert(t, es)
    ensures ApplyAll(t, es) == t
  {
    forall id
      ensures Lookup(ApplyAll(t, es), id) == Lookup(t, id)
    {
      Pointwise(t, es, id);
      if id !in t {
        NeverInserted(es, id);
      }
      ExistingRow(Lookup(t, id), es, id);
      if LastStatus(es, id).Some? && id in t {
        var i := LastUpdate(es, id);
        assert LastWord(es, i);
      }
    }
    SameRowsSameTable(ApplyAll(t, es), t);
  }

  /** Updates that all give rows the status they have. */
  lemma IdleBatch(t: Table, b: seq<Entry>)
    requires forall i :: 0 <= i < |b| ==> b[i].Update? && (b[i].id in t ==> t[b[i].id].status == b[i].status)
    ensures ApplyBatch(t, b) == t
  {
    forall id
      ensures Lookup(ApplyBatch(t, b), id) == Lookup(t, id)
    {
      BatchRow(t, b, id);
      NeverInserted(b, id);
      if LastStatus(b, id).Some? {
        var i := LastUpdate(b, id);
      }
    }
    SameRowsSameTable(ApplyBatch(t, b), t);
  }

  lemma InertTail(t: Table, b: seq<Entry>, rest: seq<Entry>)
    requires Inert(t, b + rest)
    ensures Inert(t, rest)
  {
    var es := b + rest;
    forall i | 0 <= i < |rest|
      ensures es[|b| + i] == rest[i]
      ensures LastWord(rest, i) ==> LastWord(es, |b| + i)
    {
      assert es[|b| + i + 1..] == rest[i+1..];
      if j :| i <= j < |rest| && rest[j].Insert? {
        assert es[|b| + j].Insert?;
      }
    }
  }

  lemma UpdatesBeforeInsert(t: Table, b: seq<Entry>, rest: seq<Entry>)
    requires Inert(t, b + rest) && InsertFollows(b + rest, 0)
    requires forall k :: 0 <= k < |b| ==> b[k].Update?
    ensures forall i :: 0 <= i < |b| ==> b[i].id in t ==> t[b[i].id].status == b[i].status
  {
    var es := b + rest;
    var j :| 0 <= j < |es| && es[j].Insert?;
    assert j >= |b|;
    forall i | 0 <= i < |b|
      ensures b[i].id in t ==> t[b[i].id].status == b[i].status
    {
      assert es[i] == b[i];
      assert InsertFollows(es, i);
      assert LastWord(es, i);
    }
  }

  /** Every cutting of an inert queue leaves the table as it is. */
  lemma {:induction false} InertBatches(t: Table, batches: seq<seq<Entry>>)
    requires Inert(t, Flatten(batches))
    ensures ApplyBatches(t, batches) == t
    decreases |batches|
  {
    if batches != [] {
      var b, rest := batches[0], Flatten(batches[1..]);
      var es := b + rest;
      InertTail(t, b, rest);
      if !InsertFollows(es, 0) {
        assert Fresh(t, es) && OrderSafe(es);
        BatchingKeepsMeaning(t, batches);
        InertOneByOne(t, es);
      } else {
        if k :| 0 <= k < |b| && b[k].Insert? {
          assert es[k] == b[k];
          assert !Fresh(t, b);
        } else {
          UpdatesBeforeInsert(t, b, rest);
          IdleBatch(t, b);
        }
        InertBatches(t, batches[1..]);
      }
    }
  }

  // ... and the other way round: a queue with a repeated insert, all of whose cuttings agree, is inert

  /** Rows are never deleted. */
  lemma {:induction false} NeverDeleted(t: Table, es: seq<Entry>, id: MessageId)
    requires id in t || exists i :: 0 <= i < |es| && es[i].Insert? && es[i].id == id
    ensures id in ApplyAll(t, es)
    decreases |es|
  {
    if es != [] {
      if id !in Apply(t, es[0]) {
        var i :| 0 <= i < |es| && es[i].Insert? && es[i].id == id;
        assert es[1..][i - 1] == es[i];
      }
      NeverDeleted(Apply(t, es[0]), es[1..], id);
    }
  }

  /** Rolling the whole queue back changes nothing, so nothing may change in any other cutting either. */
  lemma RepeatedMeansNothing(t: Table, es: seq<Entry>)
    requires CuttingsAgree(t, es) && !Fresh(t, es)
    ensures ApplyAll(t, es) == t && RepeatsOnly(t, es)
  {
    OneBatch(t, es);
    forall i | 0 <= i < |es| && es[i].Insert?
      ensures es[i].id in t
    {
      NeverDeleted(t, es, es[i].id);
    }
  }

  lemma RepeatRollsBack(t: Table, es: seq<Entry>, n: nat)
    requires RepeatsOnly(t, es) && n <= |es| && InsertFollows(es, n)
    ensures ApplyBatch(ApplyAll(t, es[..n]), es[n..]) == ApplyAll(t, es[..n])
  {
    var j :| n <= j < |es| && es[j].Insert?;
    NeverDeleted(t, es[..n], es[j].id);
    assert es[n..][j - n] == es[j];
  }

  /** The first `n` entries one by one, and then a batch that is rolled back. */
  lemma RolledBackTail(t: Table, es: seq<Entry>, n: nat)
    requires CuttingsAgree(t, es) && RepeatsOnly(t, es) && ApplyAll(t, es) == t
    requires n <= |es| && InsertFollows(es, n)
    ensures ApplyAll(t, es[..n]) == t
  {
    var head, tail := es[..n], es[n..];
    assert head + tail == es;
    SinglesApply(t, head);
    BatchesSnoc(t, Singles(head), tail);
    RepeatRollsBack(t, es, n);
  }

  lemma LastOneWins(t: Table, es: seq<Entry>, i: nat)
    requires i < |es| && es[i].Update? && es[i].id in t && LastStatus(es[i+1..], es[i].id) == None
    ensures es[i].id in ApplyAll(t, es) && ApplyAll(t, es)[es[i].id].status == es[i].status
  {
    var id := es[i].id;
    Pointwise(t, es, id);
    ExistingRow(Some(t[id]), es, id);
    assert es == es[..i] + es[i..] && es[i..][1..] == es[i+1..];
    LastStatusConcat(es[..i], es[i..], id);
  }

  lemma AgreeingIsInert(t: Table, es: seq<Entry>)
    requires CuttingsAgree(t, es) && !Fresh(t, es)
    ensures Inert(t, es)
  {
    RepeatedMeansNothing(t, es);
    forall i | 0 <= i < |es| && LastWord(es, i) && es[i].id in t
      ensures t[es[i].id].status == es[i].status
    {
      if InsertFollows(es, i) {
        assert InsertFollows(es, i + 1);
        RolledBackTail(t, es, i);
        RolledBackTail(t, es, i + 1);
        assert es[..i + 1] == es[..i] + [es[i]] && [es[i]][1..] == [];
        ApplyAllConcat(t, es[..i], [es[i]]);
      } else {
        LastOneWins(t, es, i);
      }
    }
  }

  lemma InertAgrees(t: Table, es: seq<Entry>)
    requires Inert(t, es)
    ensures CuttingsAgree(t, es)
  {
    InertOneByOne(t, es);
    forall batches | Flatten(batches) == es
      ensures ApplyBatches(t, batches) == ApplyAll(t, es)
    {
      InertBatches(t, batches);
    }
  }

  /** For every table and every queue, repeated ids and all: each cutting means the same as one entry after the other
      if and only if nothing is inserted twice and the queue is order-safe, or the queue can have no effect at all. */
  lemma BatchingExact(t: Table, es: seq<Entry>)
    ensures CuttingsAgree(t, es) <==> (Fresh(t, es) && OrderSafe(es)) || Inert(t, es)
  {
    if Fresh(t, es) {
      FreshBatchingExact(t, es);
    } else if CuttingsAgree(t, es) {
      AgreeingIsInert(t, es);
    }
    if Inert(t, es) {
      InertAgrees(t, es);
    }
  }

  /** In particular a batch that inserts a new id twice is lost as a whole, where one by one its rows are stored. */
  lemma RepeatLosesBatch(t: Table, id: MessageId, row: MessageRow)
    requires id !in t
    ensures var es := [Insert(id, row), Insert(id, row)];
      ApplyBatches(t, [es]) == t && ApplyAll(t, es) == t[id := row]
  {
    var es := [Insert(id, row), Insert(id, row)];
    OneBatch(t, es);
    assert es[0].id == es[1].id && !Fresh(t, es);
    assert es[1..] == [Insert(id, row)] && [Insert(id, row)][1..] == [];
    assert ApplyAll(t, es) == ApplyAll(t[id := row], [Insert(id, row)]) == ApplyAll(t[id := row], []);
  }

  // ---- queues the broker builds ------------------------------------------------------------------

  lemma {:induction false} NoUpdateNoStatus(es: seq<Entry>, id: MessageId)
    requires forall i :: 0 <= i < |es| && es[i].Update? ==> es[i].id != id
    ensures LastStatus(es, id) == None
    decreases |es|
  {
    if es != [] {
      NoUpdateNoStatus(es[1..], id);
    }
  }

  /** In particular when no update of an id precedes its insert. */
  lemma UpdatesAfterInsertsAreSafe(es: seq<Entry>)
    requires forall i, j :: 0 <= i < j < |es| && es[i].Update? && es[j].Insert? ==> es[i].id != es[j].id
    ensures OrderSafe(es)
  {
    forall j | 0 <= j < |es| && es[j].Insert?
      ensures OrderSafeAt(es, j)
    {
      NoUpdateNoStatus(es[..j], es[j].id);
    }
  }

  /** The broker can break it: a timer that fires while the delivery is still suspended queues its
      status update before the request handler queues the row.  One batch then records a timeout where
      two batches record a delivery. */
  lemma TimeoutQueuedBeforeRow(row: MessageRow)
    requires row.status == Delivered
    ensures var late, insert := Update("m", Timeout), Insert("m", row);
      && !OrderSafe([late, insert])
      && Lookup(ApplyBatches(map[], [[late, insert]]), "m") == Some(row.(status := Timeout))
      && Lookup(ApplyBatches(map[], [[late], [insert]]), "m") == Some(row)
  {
    var late, insert := Update("m", Timeout), Insert("m", row);
    var es := [late, insert];
    assert es[1..] == [insert] && [insert][1..] == [] && [late][1..] == [] && es[..1] == [late] && es[2..] == [];
    assert LastStatus([late], "m") == Some(Timeout) && LastStatus([], "m") == None;
    assert !OrderSafeAt(es, 1);
    OneBatch(map[], es);
    BatchRow(map[], es, "m");
    var empty := ApplyBatch(map[], [late]);
    assert empty == map[] by {
      forall id
        ensures Lookup(empty, id) == None
      {
        BatchRow(map[], [late], id);
      }
      SameRowsSameTable(empty, map[]);
    }
    assert [[late], [insert]][1..] == [[insert]];
    OneBatch(map[], [insert]);
    BatchRow(map[], [insert], "m");
  }

  // ---- replayed tool-call rows -------------------------------------------------------------------

  lemma {:induction false} InsertRowsConcat(t: ToolTable, a: seq<Keyed>, b: seq<Keyed>)
    ensures InsertRows(t, a + b) == InsertRows(InsertRows(t, a), b)
    decreases |a|
  {
    if a == [] {
      assert a + b == b;
    } else {
      assert (a + b)[1..] == a[1..] + b;
      InsertRowsConcat(InsertRow(t, a[0].id, a[0].row), a[1..], b);
    }
  }

  lemma {:induction false} IngestIsInsertRows(t: ToolTable, attempts: seq<Attempt>)
    requires ValidAttempts(attempts)
    ensures Ingest(t, attempts) == InsertRows(t, Offered(attempts))
    decreases |attempts|
  {
    if attempts != [] {
      var first := RowsOf(attempts[0].flush, attempts[0].n);
      InsertRowsConcat(t, first, Offered(attempts[1..]));
      IngestIsInsertRows(InsertRows(t, first), attempts[1..]);
    }
  }

  predicate Offers(rows: seq<Keyed>, id: RowId) {
    exists k :: 0 <= k < |rows| && rows[k].id == id
  }

  /** The rows at their first appearance, each id once. */
  function FirstAppearances(rows: seq<Keyed>): seq<Keyed>
    decreases |rows|
  {
    if rows == [] then []
    else
      var before := FirstAppearances(rows[..|rows|-1]);
      var last := rows[|rows|-1];
      if Offers(rows[..|rows|-1], last.id) then before else before + [last]
  }

  predicate DistinctIds(rows: seq<Keyed>) {
    forall i, j :: 0 <= i < j < |rows| ==> rows[i].id != rows[j].id
  }

  ghost predicate SameIds(a: seq<Keyed>, b: seq<Keyed>) {
    forall id :: Offers(a, id) <==> Offers(b, id)
  }

  /** The earliest row of its id. */
  predicate IsFirst(rows: seq<Keyed>, row: Keyed) {
    exists k :: 0 <= k < |rows| && rows[k] == row && !Offers(rows[..k], row.id)
  }

  predicate AllFirst(rows: seq<Keyed>, firsts: seq<Keyed>) {
    forall i :: 0 <= i < |firsts| ==> IsFirst(rows, firsts[i])
  }

  lemma StillDistinct(rows: seq<Keyed>, last: Keyed)
    requires DistinctIds(rows) && !Offers(rows, last.id)
    ensures DistinctIds(rows + [last])
  {
    forall i | 0 <= i < |rows|
      ensures rows[i].id != last.id
    {
    }
  }

  lemma FirstsStayFirst(rows: seq<Keyed>, last: Keyed)
    ensures forall row :: IsFirst(rows, row) ==> IsFirst(rows + [last], row)
    ensures !Offers(rows, last.id) ==> IsFirst(rows + [last], last)
  {
    var all := rows + [last];
    forall row | IsFirst(rows, row)
      ensures IsFirst(all, row)
    {
      var k :| 0 <= k < |rows| && rows[k] == row && !Offers(rows[..k], row.id);
      assert all[..k] == rows[..k] && all[k] == row;
    }
    assert all[..|rows|] == rows && all[|rows|] == last;
  }

  lemma AllStayFirst(rows: seq<Keyed>, firsts: seq<Keyed>, last: Keyed)
    requires AllFirst(rows, firsts)
    ensures AllFirst(rows + [last], firsts)
    ensures !Offers(rows, last.id) ==> AllFirst(rows + [last], firsts + [last])
  {
    FirstsStayFirst(rows, last);
    hide IsFirst, Offers;
  }

  lemma OffersOneMore(rows: seq<Keyed>, last: Keyed)
    ensures forall id :: Offers(rows + [last], id) <==> Offers(rows, id) || id == last.id
  {
    var all := rows + [last];
    forall id
      ensures Offers(all, id) <==> Offers(rows, id) || id == last.id
    {
      if k :| 0 <= k < |rows| && rows[k].id == id {
        assert all[k].id == id;
      }
      assert all[|rows|] == last;
    }
  }

  /** It is what it says: no id twice, and each row is the earliest of its id. */
  lemma {:induction false} FirstAppearancesExact(rows: seq<Keyed>)
    ensures DistinctIds(FirstAppearances(rows))
    ensures SameIds(FirstAppearances(rows), rows)
    ensures AllFirst(rows, FirstAppearances(rows))
    decreases |rows|
  {
    if rows != [] {
      var init, last := rows[..|rows|-1], rows[|rows|-1];
      var before := FirstAppearances(init);
      FirstAppearancesExact(init);
      assert rows == init + [last];
      OffersOneMore(init, last);
      OffersOneMore(before, last);
      AllStayFirst(init, before, last);
      if !Offers(init, last.id) {
        StillDistinct(before, last);
      }
    }
  }

  lemma {:induction false} RowsStay(t: ToolTable, rows: seq<Keyed>, id: RowId)
    ensures id in InsertRows(t, rows) <==> id in t || Offers(rows, id)
    ensures id in t ==> InsertRows(t, rows)[id] == t[id]
    decreases |rows|
  {
    if rows != [] {
      RowsStay(InsertRow(t, rows[0].id, rows[0].row), rows[1..], id);
      if Offers(rows[1..], id) {
        var k :| 0 <= k < |rows[1..]| && rows[1..][k].id == id;
        assert rows[k + 1].id == id;
      }
      if Offers(rows, id) && rows[0].id != id {
        var k :| 0 <= k < |rows| && rows[k].id == id;
        assert rows[1..][k - 1].id == id;
      }
      if rows[0].id == id {
        assert Offers(rows, id);
      }
    }
  }

  /** Any history of deliveries, replays and deliveries cut short leaves the table that results from
      inserting each row id once, at its first appearance. */
  lemma {:induction false} ReplaysAddNothing(t: ToolTable, rows: seq<Keyed>)
    ensures InsertRows(t, rows) == InsertRows(t, FirstAppearances(rows))
    decreases |rows|
  {
    if rows != [] {
      var init, last := rows[..|rows|-1], rows[|rows|-1];
      ReplaysAddNothing(t, init);
      InsertRowsConcat(t, init, [last]);
      assert init + [last] == rows;
      var u := InsertRows(t, init);
      assert InsertRows(u, [last]) == InsertRow(u, last.id, last.row) by {
        assert [last][1..] == [];
      }
      RowsStay(t, init, last.id);
      if !Offers(init, last.id) {
        InsertRowsConcat(t, FirstAppearances(init), [last]);
      }
    }
  }

  lemma IngestIdempotent(t: ToolTable, attempts: seq<Attempt>)
    requires ValidAttempts(attempts)
    ensures Ingest(t, attempts) == InsertRows(t, FirstAppearances(Offered(attempts)))
  {
    IngestIsInsertRows(t, attempts);
    ReplaysAddNothing(t, Offered(attempts));
  }

  /** A table that lacks the id holds the earliest row offered for it. */
  lemma {:induction false} EarliestRow(t: ToolTable, rows: seq<Keyed>, k: nat)
    requires k < |rows| && rows[k].id !in t && forall j :: 0 <= j < k ==> rows[j].id != rows[k].id
    ensures rows[k].id in InsertRows(t, rows) && InsertRows(t, rows)[rows[k].id] == rows[k].row
    decreases |rows|
  {
    var u := InsertRow(t, rows[0].id, rows[0].row);
    if k == 0 {
      RowsStay(u, rows[1..], rows[0].id);
    } else {
      assert rows[1..][k - 1] == rows[k];
      assert forall j :: 0 <= j < k - 1 ==> rows[1..][j] == rows[j + 1];
      EarliestRow(u, rows[1..], k - 1);
    }
  }

  /** The delivery `a` wrote a row of this id. */
  predicate Writes(a: Attempt, id: RowId)
    requires a.n <= |a.flush.calls|
  {
    exists i :: 0 <= i < a.n && a.flush.calls[i].id == id
  }

  /** Over any history of deliveries: a row that was there stays as it was. */
  lemma {:induction false} IngestKeeps(t: ToolTable, attempts: seq<Attempt>, id: RowId)
    requires ValidAttempts(attempts) && id in t
    ensures id in Ingest(t, attempts) && Ingest(t, attempts)[id] == t[id]
    decreases |attempts|
  {
    if attempts != [] {
      var rows := RowsOf(attempts[0].flush, attempts[0].n);
      RowsStay(t, rows, id);
      IngestKeeps(InsertRows(t, rows), attempts[1..], id);
    }
  }

  /** Any other row is the first one written for its id, with the workflow, parent, agent and role of the flush it came
      in, whatever later deliveries say. */
  lemma {:induction false} IngestedRow(t: ToolTable, attempts: seq<Attempt>, a: nat, i: nat)
    requires ValidAttempts(attempts) && a < |attempts| && i < attempts[a].n && attempts[a].flush.calls[i].id !in t
    requires forall b :: 0 <= b < a ==> !Writes(attempts[b], attempts[a].flush.calls[i].id)
    requires forall j :: 0 <= j < i ==> attempts[a].flush.calls[j].id != attempts[a].flush.calls[i].id
    ensures var (flush, table) := (attempts[a].flush, Ingest(t, attempts));
      var item := flush.calls[i];
      && item.id in table
      && table[item.id] == ToolCallRow(flush.workflow, flush.parent, flush.agent, flush.role, item.body)
    decreases |attempts|
  {
    var (rows, id) := (RowsOf(attempts[0].flush, attempts[0].n), attempts[a].flush.calls[i].id);
    var u := InsertRows(t, rows);
    if a == 0 {
      EarliestRow(t, rows, i);
      IngestKeeps(u, attempts[1..], id);
    } else {
      RowsStay(t, rows, id);
      assert !Writes(attempts[0], id);
      assert forall b :: 0 <= b < a ==> attempts[1..][b] == attempts[b + 1];
      IngestedRow(u, attempts[1..], a - 1, i);
    }
  }

  /** And there is no row that no delivery wrote. */
  lemma {:induction false} NothingElseIngested(t: ToolTable, attempts: seq<Attempt>, id: RowId)
    requires ValidAttempts(attempts) && id !in t && forall a :: 0 <= a < |attempts| ==> !Writes(attempts[a], id)
    ensures id !in Ingest(t, attempts)
    decreases |attempts|
  {
    if attempts != [] {
      assert !Writes(attempts[0], id);
      var rows := RowsOf(attempts[0].flush, attempts[0].n);
      RowsStay(t, rows, id);
      assert forall a :: 0 <= a < |attempts| - 1 ==> attempts[1..][a] == attempts[a + 1];
      NothingElseIngested(InsertRows(t, rows), attempts[1..], id);
    }
  }

  /** Delivering again what was already offered, wholly or in part, changes nothing. */
  lemma {:induction false} ReplayChangesNothing(t: ToolTable, rows: seq<Keyed>)
    requires forall k :: 0 <= k < |rows| ==> rows[k].id in t
    ensures InsertRows(t, rows) == t
    decreases |rows|
  {
    if rows != [] {
      ReplayChangesNothing(t, rows[1..]);
    }
  }
}

/** The database handle with its background writer. */
module AuditService {
  import opened AuditModel
  import opened AuditProofs

  const BATCH_SIZE: nat := 100

  class AuditDB {
    const persistPayloads: bool
    const queueSize: nat
    var messages: Table
    var toolCalls: ToolTable
    var queue: seq<Entry>

    // History: the entries the queue accepted, and the batches taken from it so far.
    ghost var accepted: seq<Entry>
    ghost var batches: seq<seq<Entry>>

    /** The table is what the batches made of it, and nothing was lost or reordered on the way. */
    ghost predicate Valid()
      reads this
    {
      && messages == ApplyBatches(map[], batches) && Flatten(batches) + queue == accepted
      && (queueSize > 0 ==> |queue| <= queueSize)
    }

    constructor (persistPayloads: bool, queueSize: nat)
      ensures Valid() && accepted == [] && toolCalls == map[]
      ensures this.persistPayloads == persistPayloads && this.queueSize == queueSize
    {
      this.persistPayloads, this.queueSize := persistPayloads, queueSize;
      messages, toolCalls, queue, accepted, batches := map[], map[], [], [], [];
    }

    function StoredRow(routing: string, payloadJson: string, status: DeliveryStatus): (row: MessageRow)
      ensures row.payloadSize == |payloadJson| && row.status == status && row.routing == routing
      ensures (persistPayloads ==> row.payload == payloadJson) && (!persistPayloads ==> row.payload == "")
    {
      MessageRow(routing, if persistPayloads then payloadJson else "", |payloadJson|, status)
    }

    /** A size of zero means unbounded. */
    predicate Full()
      reads this
    {
      queueSize > 0 && |queue| >= queueSize
    }

    /** A full queue drops the entry. */
    method Enqueue(e: Entry)
      requires Valid()
      modifies this`queue, this`accepted
      ensures Valid()
      ensures accepted == if old(Full()) then old(accepted) else old(accepted) + [e]
    {
      if !Full() {
        queue := queue + [e];
        accepted := accepted + [e];
        assert Flatten(batches) + queue == accepted;
      }
    }

    /** The first item, then greedily up to 99 more. */
    method TakeBatch() returns (batch: seq<Entry>)
      requires queue != []
      modifies this`queue
      ensures var n := if |old(queue)| < BATCH_SIZE then |old(queue)| else BATCH_SIZE;
        batch == old(queue)[..n] && queue == old(queue)[n..]
    {
      batch, queue := [queue[0]], queue[1..];
      for i := 1 to BATCH_SIZE
        invariant 1 <= |batch| <= i && batch + queue == old(queue)
        invariant |batch| == i || queue == []
      {
        if queue == [] {
          break;
        }
        batch, queue := batch + [queue[0]], queue[1..];
      }
      assert batch == old(queue)[..|batch|] && queue == old(queue)[|batch|..];
    }

    /** One transaction; `false` if an integrity error rolled it back. */
    method WriteMessageBatch(batch: seq<Entry>) returns (written: bool)
      modifies this`messages
      ensures messages == ApplyBatch(old(messages), batch)
      ensures written <==> Fresh(old(messages), batch)
    {
      var inserts, updates := Inserts(batch), Updates(batch);
      if !Fresh(messages, batch) {
        return false;
      }
      var session := messages;
      for i := 0 to |inserts|
        invariant session == ApplyAll(old(messages), inserts[..i])
        modifies {}
      {
        ApplyAllConcat(messages, inserts[..i], [inserts[i]]);
        assert inserts[..i] + [inserts[i]] == inserts[..i+1];
        session := Apply(session, inserts[i]);
      }
      assert inserts[..|inserts|] == inserts;
      ghost var flushed := session;
      for i := 0 to |updates|
        invariant session == ApplyAll(flushed, updates[..i])
        modifies {}
      {
        ApplyAllConcat(flushed, updates[..i], [updates[i]]);
        assert updates[..i] + [updates[i]] == updates[..i+1];
        session := Apply(session, updates[i]);
      }
      assert updates[..|updates|] == updates;
      messages := session;
      return true;
    }

    method Commit(batch: seq<Entry>)
      requires messages == ApplyBatches(map[], batches)
      modifies this`messages, this`batches
      ensures batches == old(batches) + [batch] && messages == ApplyBatches(map[], batches)
      ensures Flatten(batches) == old(Flatten(batches)) + batch
    {
      var written := WriteMessageBatch(batch);
      batches := batches + [batch];
      BatchesSnoc(map[], old(batches), batch);
    }

    /** One turn of the flush loop. */
    method FlushOnce()
      requires Valid() && queue != []
      modifies this`queue, this`messages, this`batches
      ensures Valid() && accepted == old(accepted)
      ensures var n := if |old(queue)| < BATCH_SIZE then |old(queue)| else BATCH_SIZE;
        queue == old(queue)[n..] && batches == old(batches) + [old(queue)[..n]]
    {
      var batch := TakeBatch();
      assert batch + queue == old(queue);
      assert Flatten(batches) + (batch + queue) == (Flatten(batches) + batch) + queue;
      Commit(batch);
    }

    method TakeAll() returns (batch: seq<Entry>)
      modifies this`queue
      ensures batch == old(queue) && queue == []
    {
      batch := [];
      while queue != []
        invariant batch + queue == old(queue)
        decreases |queue|
      {
        batch, queue := batch + [queue[0]], queue[1..];
      }
    }

    /** Shutdown: whatever is left goes out in one batch. */
    method Drain()
      requires Valid()
      modifies this`queue, this`messages, this`batches
      ensures Valid() && queue == [] && accepted == old(accepted)
      ensures Fresh(map[], accepted) && OrderSafe(accepted) ==> messages == ApplyAll(map[], accepted)
    {
      var batch := TakeAll();
      if batch != [] {
        Commit(batch);
      }
      assert Flatten(batches) == accepted && Flatten(batches) + queue == accepted;
      if Fresh(map[], accepted) && OrderSafe(accepted) {
        BatchingKeepsMeaning(map[], batches);
      }
    }

    /** An omitted (empty) id is replaced by a generated one. */
    method LogToolCall(rowId: string, generated: RowId, row: ToolCallRow) returns (id: RowId)
      modifies this`toolCalls
      ensures id == if rowId == "" then generated else rowId
      ensures toolCalls == InsertRow(old(toolCalls), id, row)
    {
      id := if rowId == "" then generated else rowId;
      if id !in toolCalls {
        toolCalls := toolCalls[id := row];
      }
    }

    /** `stop` is where the delivery is cut short; an undisturbed one goes to the end. */
    method IngestAuditFlush(flush: AuditFlush, stop: nat) returns (count: nat)
      requires stop <= |flush.calls|
      modifies this`toolCalls
      ensures toolCalls == InsertRows(old(toolCalls), RowsOf(flush, stop))
      ensures count == stop
    {
      count := 0;
      var rows := RowsOf(flush, stop);
      while count < stop
        invariant count <= stop
        invariant toolCalls == InsertRows(old(toolCalls), rows[..count])
      {
        var item := flush.calls[count];
        var id := LogToolCall(item.id, item.id, RowOf(flush, item));
        InsertRowsConcat(old(toolCalls), rows[..count], [rows[count]]);
        assert rows[..count] + [rows[count]] == rows[..count + 1];
        assert [rows[count]][1..] == [];
        count := count + 1;
      }
      assert rows[..count] == rows;
    }
  }
}
