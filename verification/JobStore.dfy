/**
 The durable snapshot (src/storage.rs): a table of rows keyed by job id, its
 replacement from a registry, and the registry rebuilt from it. A row holds a
 whole record; the JSON in its columns is not modelled.
 */
module JobStore {
  import opened Collections
  import opened JobIds
  import opened JobModel
  import opened JobInvariant
  import opened JobExactness
  import opened Sorting

  const I64_MAX: nat := 0x7FFF_FFFF_FFFF_FFFF

  datatype Row = Row(job: Job, orderPosition: nat, queuePosition: Option<nat>)

  type Table = map<JobId, Row>

  /** The table that stands for a registry. */
  ghost function RowsOf(r: Registry): Table
    requires WellFormed(r)
  {
    map id | id in r.jobs :: Row(r.jobs[id], IndexOf(r.order, id), QueuePosition(r, id))
  }

  ghost function QueuePosition(r: Registry, id: JobId): Option<nat>
    requires WellFormed(r) && id in r.jobs
  {
    var j := r.jobs[id];
    if j.status.Queued? then assert QueueOk(r, j.priority); Some(IndexOf(r.queues.Of(j.priority), id)) else None
  }

  lemma RowsAreKeyed(r: Registry)
    requires WellFormed(r)
    ensures PrimaryKey(RowsOf(r)) && RowsOf(r).Keys == r.jobs.Keys
  {
  }

  lemma QueuesAreOk(r: Registry)
    requires WellFormed(r)
    ensures QueueOk(r, Realtime) && QueueOk(r, Batch) && QueueOk(r, Background)
  {
  }

  // ---------- What a load makes of any table ----------

  /** ORDER BY order_position, created_at_unix_ms, id. */
  predicate RowLe(a: Row, b: Row) {
    || a.orderPosition < b.orderPosition
    || (a.orderPosition == b.orderPosition &&
          (a.job.createdAt < b.job.createdAt || (a.job.createdAt == b.job.createdAt && StringLe(a.job.id, b.job.id))))
  }

  datatype Entry = Entry(priority: Priority, position: nat, id: JobId)

  function Rank(p: Priority): nat {
    match p
    case Realtime => 0
    case Batch => 1
    case Background => 2
  }

  predicate EntryLe(a: Entry, b: Entry) {
    || Rank(a.priority) < Rank(b.priority)
    || (Rank(a.priority) == Rank(b.priority) &&
          (a.position < b.position || (a.position == b.position && StringLe(a.id, b.id))))
  }

  function EntryOf(row: Row): Entry {
    Entry(row.job.priority, if row.queuePosition.Some? then row.queuePosition.value else I64_MAX, row.job.id)
  }

  ghost predicate PrimaryKey(t: Table) { forall id :: id in t ==> t[id].job.id == id }

  ghost predicate LargestNumber(ids: set<JobId>, n: nat) {
    && (forall id :: id in ids ==> ParseNumericJobId(id) <= n)
    && (n == 0 || exists id :: id in ids && ParseNumericJobId(id) == n)
  }

  /** The registry r is a reading of table t: everything is determined but which of two equal keys wins. */
  ghost predicate Loaded(t: Table, r: Registry) {
    && LoadedJobs(t, r.jobs)
    && LargestNumber(t.Keys, r.nextId)
    && LoadedOrder(t, r.order)
    && (forall p :: LoadedQueue(t, r.queues.Of(p), p))
    && LoadedKeys(t, r.keys)
  }

  ghost predicate LoadedJobs(t: Table, jobs: map<JobId, Job>) {
    jobs.Keys == t.Keys && forall id :: id in t ==> jobs[id] == t[id].job
  }

  ghost predicate LoadedOrder(t: Table, order: seq<JobId>) {
    && NoDuplicates(order)
    && (forall id :: id in order <==> id in t)
    && (forall i, j :: 0 <= i < j < |order| ==> RowLe(t[order[i]], t[order[j]]))
  }

  ghost predicate LoadedKeys(t: Table, keys: map<string, JobId>) {
    && (forall k :: k in keys ==> keys[k] in t && t[keys[k]].job.key == Some(k))
    && (forall id :: id in t && t[id].job.key.Some? ==> t[id].job.key.value in keys)
  }

  ghost predicate LoadedQueue(t: Table, q: seq<JobId>, p: Priority) {
    && NoDuplicates(q)
    && (forall id :: id in q <==> id in t && t[id].job.status.Queued? && t[id].job.priority == p)
    && (forall i, j :: 0 <= i < j < |q| ==> EntryLe(EntryOf(t[q[i]]), EntryOf(t[q[j]])))
  }

  /**
   The order that a load gives to the rows of any table: by position, then by creation time, then by id; and that of a
   queue: by queue position, a missing one standing last of all that fit 63 bits, then by id.
   */
  lemma LoadOrder(t: Table, r: Registry, i: nat, j: nat, p: Priority)
    requires Loaded(t, r) && i < j
    ensures j < |r.order| ==>
      var x, y := t[r.order[i]], t[r.order[j]];
      && x.orderPosition <= y.orderPosition
      && (x.orderPosition == y.orderPosition ==> x.job.createdAt <= y.job.createdAt)
      && (x.orderPosition == y.orderPosition && x.job.createdAt == y.job.createdAt ==> StringLe(x.job.id, y.job.id))
    ensures j < |r.queues.Of(p)| ==>
      var x, y := t[r.queues.Of(p)[i]], t[r.queues.Of(p)[j]];
      && (x.queuePosition.Some? && y.queuePosition.Some? ==> x.queuePosition.value <= y.queuePosition.value)
      && (x.queuePosition.None? && y.queuePosition.Some? ==> 0x7FFF_FFFF_FFFF_FFFF <= y.queuePosition.value)
      && (x.queuePosition == y.queuePosition ==> StringLe(x.job.id, y.job.id))
  {
    hide StringLe, ParseNumericJobId;
    if j < |r.queues.Of(p)| {
      assert LoadedQueue(t, r.queues.Of(p), p);
    }
  }

  // ---------- Round trip ----------

  lemma OrderRestored(saved: Registry, order: seq<JobId>)
    requires WellFormed(saved) && LoadedOrder(RowsOf(saved), order)
    ensures order == saved.order
  {
    var t := RowsOf(saved);
    assert OrderOk(saved);
    forall id ensures id in order <==> id in saved.order {
      assert id in t <==> id in saved.jobs;
    }
    assert forall i :: 0 <= i < |order| ==> order[i] in order;
    forall i, j | 0 <= i < j < |order| ensures IndexOf(saved.order, order[i]) < IndexOf(saved.order, order[j]) {
      var a, b := order[i], order[j];
      assert t[a].orderPosition == IndexOf(saved.order, a) && t[b].orderPosition == IndexOf(saved.order, b);
      assert RowLe(t[a], t[b]);
    }
    InOrderEqual(order, saved.order);
  }

  lemma QueueRestored(saved: Registry, q: seq<JobId>, p: Priority)
    requires WellFormed(saved) && LoadedQueue(RowsOf(saved), q, p)
    ensures q == saved.queues.Of(p)
  {
    var t, was := RowsOf(saved), saved.queues.Of(p);
    assert QueueOk(saved, p);
    forall id ensures id in q <==> id in was {
      assert id in t ==> t[id].job == saved.jobs[id];
    }
    forall i, j | 0 <= i < j < |q| ensures IndexOf(was, q[i]) < IndexOf(was, q[j]) {
      QueuedEntry(saved, p, q[i]);
      QueuedEntry(saved, p, q[j]);
      assert EntryLe(EntryOf(t[q[i]]), EntryOf(t[q[j]]));
    }
    InOrderEqual(q, was);
  }

  lemma QueuedEntry(saved: Registry, p: Priority, id: JobId)
    requires WellFormed(saved) && id in saved.queues.Of(p)
    ensures id in RowsOf(saved) && EntryOf(RowsOf(saved)[id]) == Entry(p, IndexOf(saved.queues.Of(p), id), id)
  {
    assert QueueOk(saved, p);
  }

  lemma KeysRestored(saved: Registry, keys: map<string, JobId>)
    requires WellFormed(saved) && LoadedKeys(RowsOf(saved), keys)
    ensures keys == saved.keys
  {
    var t := RowsOf(saved);
    assert KeysOk(saved);
    forall k | k in keys ensures k in saved.keys && saved.keys[k] == keys[k] {
      assert t[keys[k]].job == saved.jobs[keys[k]];
    }
    forall k | k in saved.keys ensures k in keys {
      var id := saved.keys[k];
      assert id in t && t[id].job == saved.jobs[id];
    }
  }

  lemma QueuesRestored(saved: Registry, queues: Queues)
    requires WellFormed(saved) && forall p :: LoadedQueue(RowsOf(saved), queues.Of(p), p)
    ensures queues == saved.queues
  {
    QueueRestored(saved, queues.Of(Realtime), Realtime);
    QueueRestored(saved, queues.Of(Batch), Batch);
    QueueRestored(saved, queues.Of(Background), Background);
  }

  lemma JobsRestored(saved: Registry, jobs: map<JobId, Job>)
    requires WellFormed(saved) && LoadedJobs(RowsOf(saved), jobs)
    ensures jobs == saved.jobs && RowsOf(saved).Keys == saved.jobs.Keys
  {
    assert RowsOf(saved).Keys == saved.jobs.Keys;
  }

  /**
   Loading what was saved gives back the same jobs, order, queues and keys; only `nextId` may differ, being
   the largest retained number.
   */
  lemma LoadInvertsReplace(saved: Registry, r: Registry)
    requires WellFormed(saved) && Loaded(RowsOf(saved), r)
    ensures r == saved.(nextId := r.nextId)
    ensures LargestNumber(saved.jobs.Keys, r.nextId)
  {
    OrderRestored(saved, r.order);
    KeysRestored(saved, r.keys);
    QueuesRestored(saved, r.queues);
    JobsRestored(saved, r.jobs);
  }

  /** The largest number among these ids. */
  function LargestIn(ids: seq<JobId>): nat {
    if ids == [] then 0 else Max(LargestIn(ids[..|ids| - 1]), ParseNumericJobId(ids[|ids| - 1]))
  }

  function Max(a: nat, b: nat): nat { if b > a then b else a }

  lemma {:induction false} LargestInIsLargest(ids: seq<JobId>)
    ensures forall id :: id in ids ==> ParseNumericJobId(id) <= LargestIn(ids)
    ensures LargestIn(ids) == 0 || exists id :: id in ids && ParseNumericJobId(id) == LargestIn(ids)
  {
    if ids != [] {
      var front, last := ids[..|ids| - 1], ids[|ids| - 1];
      LargestInIsLargest(front);
      assert last in ids;
      if id :| id in front && ParseNumericJobId(id) == LargestIn(front) {
        assert id in ids;
      }
    }
  }

  /** The table determines the restored number: it is the largest in the submission order. */
  lemma LargestIsUnique(r: Registry, n: nat)
    requires OrderOk(r)
    ensures LargestNumber(r.jobs.Keys, n) <==> n == LargestIn(r.order)
  {
    LargestInIsLargest(r.order);
    if LargestNumber(r.jobs.Keys, n) {
      if n != 0 {
        var id :| id in r.jobs.Keys && ParseNumericJobId(id) == n;
        assert id in r.order;
      }
      if id :| id in r.order && ParseNumericJobId(id) == LargestIn(r.order) {
        assert id in r.jobs.Keys;
      }
    } else if id :| id in r.order && ParseNumericJobId(id) == LargestIn(r.order) {
      assert id in r.jobs.Keys;
    }
  }

  /** The registry after a crash and a restart at `now`. */
  function Restarted(saved: Registry, now: nat): Registry { Sweep(saved.(nextId := LargestIn(saved.order)), now).0 }

  lemma RetainedNumbers(saved: Registry, n: nat, id: JobId)
    requires IdsOk(saved) && saved.nextId <= U64_MAX && LargestNumber(saved.jobs.Keys, n) && id in saved.jobs
    ensures 1 <= ParseNumericJobId(id) <= saved.nextId && id == JobIdOf(ParseNumericJobId(id)) && Issued(id, n)
  {
    assert Issued(id, saved.nextId);
    var k: nat :| 1 <= k <= saved.nextId && id == JobIdOf(k);
    ParseReadsBack(k);
    assert id in saved.jobs.Keys;
  }

  /** The restored registry is consistent, and writes the same table. */
  lemma RestoredWellFormed(saved: Registry, n: nat)
    requires WellFormed(saved) && saved.nextId <= U64_MAX && LargestNumber(saved.jobs.Keys, n)
    ensures n <= saved.nextId
    ensures WellFormed(saved.(nextId := n)) && RowsOf(saved.(nextId := n)) == RowsOf(saved)
  {
    var r := saved.(nextId := n);
    if n != 0 {
      var id :| id in saved.jobs.Keys && ParseNumericJobId(id) == n;
      RetainedNumbers(saved, n, id);
    }
    assert IdsOk(r) by {
      forall id | id in r.jobs ensures Issued(id, r.nextId) {
        RetainedNumbers(saved, n, id);
      }
    }
    SameButNextId(saved, r);
  }

  lemma SameButNextId(saved: Registry, r: Registry)
    requires WellFormed(saved) && r == saved.(nextId := r.nextId) && IdsOk(r)
    ensures WellFormed(r) && RowsOf(r) == RowsOf(saved)
  {
    forall p ensures QueueOk(r, p) {
      assert QueueOk(saved, p);
    }
    assert OrderOk(r) && JobsOk(r) && KeysOk(r);
    forall id | id in r.jobs ensures RowsOf(r)[id] == RowsOf(saved)[id] {
    }
  }

  /** `nextId` survives a restart exactly when the newest job is still retained: a pruned newest id comes back. */
  lemma NextIdSurvivesIffNewestRetained(saved: Registry, n: nat)
    requires WellFormed(saved) && saved.nextId <= U64_MAX && LargestNumber(saved.jobs.Keys, n)
    ensures n == saved.nextId <==> saved.nextId == 0 || JobIdOf(saved.nextId) in saved.jobs
  {
    RestoredWellFormed(saved, n);
    ParseReadsBack(saved.nextId);
    if n == saved.nextId && n != 0 {
      var id :| id in saved.jobs.Keys && ParseNumericJobId(id) == n;
      RetainedNumbers(saved, n, id);
    }
  }

  // ---------- The store ----------

  lemma RowLeTotal()
    ensures TotalPreorder(RowLe)
  {
    forall a, b ensures RowLe(a, b) || RowLe(b, a) {
      StringLeTotal(a.job.id, b.job.id);
    }
    forall a, b, c | RowLe(a, b) && RowLe(b, c) ensures RowLe(a, c) {
      if StringLe(a.job.id, b.job.id) && StringLe(b.job.id, c.job.id) {
        StringLeTransitive(a.job.id, b.job.id, c.job.id);
      }
    }
  }

  lemma EntryLeTotal()
    ensures TotalPreorder(EntryLe)
  {
    forall a, b ensures EntryLe(a, b) || EntryLe(b, a) {
      StringLeTotal(a.id, b.id);
    }
    forall a, b, c | EntryLe(a, b) && EntryLe(b, c) ensures EntryLe(a, c) {
      if StringLe(a.id, b.id) && StringLe(b.id, c.id) {
        StringLeTransitive(a.id, b.id, c.id);
      }
    }
  }

  function IdsOf(rows: seq<Row>): (ids: seq<JobId>)
    ensures |ids| == |rows| && forall i :: 0 <= i < |rows| ==> ids[i] == rows[i].job.id
  {
    if rows == [] then [] else IdsOf(rows[..|rows| - 1]) + [rows[|rows| - 1].job.id]
  }

  function EntriesOf(rows: seq<Row>): seq<Entry> {
    if rows == [] then []
    else
      var last := rows[|rows| - 1];
      EntriesOf(rows[..|rows| - 1]) + if last.job.status.Queued? then [EntryOf(last)] else []
  }

  lemma {:induction false} EntriesMembers(rows: seq<Row>, e: Entry)
    ensures e in EntriesOf(rows) <==> exists i :: 0 <= i < |rows| && rows[i].job.status.Queued? && e == EntryOf(rows[i])
  {
    if rows != [] {
      var front := rows[..|rows| - 1];
      EntriesMembers(front, e);
      assert forall i :: 0 <= i < |front| ==> front[i] == rows[i];
    }
  }

  lemma ReadRow(rows: seq<Row>, i: nat)
    requires i < |rows|
    ensures IdsOf(rows[..i + 1]) == IdsOf(rows[..i]) + [rows[i].job.id]
    ensures EntriesOf(rows[..i + 1]) ==
            EntriesOf(rows[..i]) + if rows[i].job.status.Queued? then [EntryOf(rows[i])] else []
  {
    assert rows[..i + 1][..i] == rows[..i];
  }

  lemma {:induction false} EntriesDistinct(rows: seq<Row>)
    requires forall i, j :: 0 <= i < j < |rows| ==> rows[i].job.id != rows[j].job.id
    ensures NoDuplicates(EntriesOf(rows))
  {
    if rows != [] {
      var front, last := rows[..|rows| - 1], rows[|rows| - 1];
      EntriesDistinct(front);
      EntriesMembers(front, EntryOf(last));
    }
  }

  /** The ids of one priority's entries, in their order. */
  function QueueFrom(es: seq<Entry>, p: Priority): seq<JobId> {
    if es == [] then []
    else
      var last := es[|es| - 1];
      QueueFrom(es[..|es| - 1], p) + if last.priority == p then [last.id] else []
  }

  lemma {:induction false} QueueFromMembers(es: seq<Entry>, p: Priority, id: JobId)
    ensures id in QueueFrom(es, p) <==> exists i :: 0 <= i < |es| && es[i].priority == p && es[i].id == id
  {
    if es != [] {
      var front := es[..|es| - 1];
      QueueFromMembers(front, p, id);
      assert forall i :: 0 <= i < |front| ==> front[i] == es[i];
    }
  }

  lemma {:induction false} QueueFromSorted(es: seq<Entry>, p: Priority, entry: JobId -> Entry)
    requires Sorted(es, EntryLe)
    requires forall i :: 0 <= i < |es| ==> entry(es[i].id) == es[i]
    requires NoDuplicates(es)
    ensures var q := QueueFrom(es, p);
      NoDuplicates(q) && forall i, j :: 0 <= i < j < |q| ==> EntryLe(entry(q[i]), entry(q[j]))
  {
    if es != [] {
      var front, last := es[..|es| - 1], es[|es| - 1];
      QueueFromSorted(front, p, entry);
      var q := QueueFrom(front, p);
      forall i | 0 <= i < |q| ensures EntryLe(entry(q[i]), last) && q[i] != last.id {
        assert q[i] in q;
        QueueFromMembers(front, p, q[i]);
        var k :| 0 <= k < |front| && front[k].priority == p && front[k].id == q[i];
        assert front[k] == es[k];
      }
    }
  }

  class SqliteJobStore {
    var table: Table

    ghost predicate Valid()
      reads this
    {
      PrimaryKey(table)
    }

    constructor ()
      ensures Valid() && table == map[]
    {
      table := map[];
    }

    static method AddPositions(positions: map<JobId, nat>, queue: seq<JobId>) returns (all: map<JobId, nat>)
      requires NoDuplicates(queue)
      ensures all.Keys == positions.Keys + set id | id in queue
      ensures forall id :: id in all ==> all[id] == if id in queue then IndexOf(queue, id) else positions[id]
    {
      all := positions;
      for position := 0 to |queue|
        invariant forall id :: id in all <==> id in positions || id in queue[..position]
        invariant forall id :: id in all ==>
                all[id] == if id in queue[..position] then IndexOf(queue, id) else positions[id]
      {
        IndexOfUnique(queue, position);
        assert queue[..position + 1] == queue[..position] + [queue[position]];
        all := all[queue[position] := position];
      }
      assert queue[..|queue|] == queue;
    }

    static method QueuePositions(r: Registry) returns (positions: map<JobId, nat>)
      requires WellFormed(r)
      ensures forall id :: id in r.jobs ==>
        (if id in positions then Some(positions[id]) else None) == QueuePosition(r, id)
    {
      hide WellFormed;
      QueuesAreOk(r);
      positions := AddPositions(map[], r.queues.realtime);
      positions := AddPositions(positions, r.queues.batch);
      positions := AddPositions(positions, r.queues.background);
    }

    /** DELETE every row, then INSERT one per job in submission order. */
    method ReplaceSnapshot(r: Registry)
      requires WellFormed(r)
      modifies this
      ensures Valid() && table == RowsOf(r)
    {
      hide WellFormed, QueuePosition;
      table := map[];
      var positions := QueuePositions(r);
      ghost var rows := RowsOf(r);
      OrderIsOk(r);
      for orderPosition := 0 to |r.order|
        invariant forall id :: id in table <==> id in r.order[..orderPosition]
        invariant forall id :: id in table ==> id in rows && table[id] == rows[id]
      {
        var id := r.order[orderPosition];
        assert r.order[..orderPosition + 1] == r.order[..orderPosition] + [id];
        if id in r.jobs {
          IndexOfUnique(r.order, orderPosition);
          var job := r.jobs[id];
          OneJobOk(r, id);
          table := table[job.id := Row(job, orderPosition,
              if job.id in positions then Some(positions[job.id]) else None)];
        }
      }
      assert r.order[..|r.order|] == r.order;
      RowsAreKeyed(r);
      assert table.Keys == rows.Keys;
    }

    /** The rows in the SELECT's order, however the table stores them. */
    method SelectOrdered() returns (rows: seq<Row>)
      requires Valid()
      ensures SelectedFrom(table, rows)
    {
      var rest, unsorted: seq<Row> := table.Keys, [];
      while rest != {}
        invariant rest <= table.Keys
        invariant forall row: Row :: row in unsorted <==> row.job.id in table.Keys - rest && table[row.job.id] == row
        invariant NoDuplicates(unsorted)
        decreases rest
      {
        var id :| id in rest;
        unsorted := unsorted + [table[id]];
        rest := rest - {id};
      }
      RowLeTotal();
      SortBySorts(unsorted, RowLe);
      rows := SortBy(unsorted, RowLe);
      forall i | 0 <= i < |rows| ensures rows[i].job.id in table && table[rows[i].job.id] == rows[i] {
        assert rows[i] in rows;
      }
      forall id | id in table ensures exists i :: 0 <= i < |rows| && rows[i].job.id == id {
        assert table[id] in rows;
      }
    }

    method LoadSnapshot() returns (r: Registry)
      requires Valid()
      ensures Loaded(table, r)
    {
      var rows := SelectOrdered();
      var jobs, order, queued, nextId := ReadRows(rows);
      OrderLoaded(table, rows);
      JobsLoaded(table, rows, jobs);
      var queues := FillQueues(queued);
      var keys := CollectKeys(jobs);
      r := Registry(nextId, jobs, keys, order, queues);
      forall p ensures LoadedQueue(table, r.queues.Of(p), p) {
        QueueLoaded(table, rows, p);
      }
    }

    static method ReadRows(rows: seq<Row>)
      returns (jobs: map<JobId, Job>, order: seq<JobId>, queued: seq<Entry>, nextId: nat)
      ensures order == IdsOf(rows) && queued == EntriesOf(rows)
      ensures forall id :: id in jobs <==> id in order
      ensures forall id :: id in jobs ==> exists i :: 0 <= i < |rows| && rows[i].job.id == id && jobs[id] == rows[i].job
      ensures LargestNumber(jobs.Keys, nextId)
    {
      hide JobsRead, LargestNumber;
      jobs, order, queued, nextId := map[], [], [], 0;
      NothingRead(rows, jobs);
      for i := 0 to |rows|
        invariant order == IdsOf(rows[..i]) && queued == EntriesOf(rows[..i])
        invariant JobsRead(rows, i, jobs) && LargestNumber(jobs.Keys, nextId)
      {
        var job := rows[i].job;
        LargestGrows(jobs.Keys, nextId, job.id);
        ReadRow(rows, i);
        JobsReadStep(rows, i, jobs);
        assert (jobs[job.id := job]).Keys == jobs.Keys + {job.id};
        nextId := Max(nextId, ParseNumericJobId(job.id));
        if job.status.Queued? {
          queued := queued + [EntryOf(rows[i])];
        }
        order := order + [job.id];
        jobs := jobs[job.id := job];
      }
      assert rows[..|rows|] == rows;
      AllRead(rows, jobs);
    }

    /** Sort by priority, position and id, then append each id to its priority's queue. */
    static method FillQueues(queued: seq<Entry>) returns (queues: Queues)
      ensures forall p :: queues.Of(p) == QueueFrom(SortBy(queued, EntryLe), p)
    {
      hide SortBy, Dealt;
      var sorted := SortBy(queued, EntryLe);
      queues := Queues([], [], []);
      NothingDealt(sorted);
      for i := 0 to |sorted|
        invariant Dealt(sorted, i, queues)
      {
        DealStep(sorted, i, queues);
        queues := queues.Push(sorted[i].priority, sorted[i].id);
      }
      AllDealt(sorted, queues);
    }

    /** The keys of all jobs, in whatever order the map lists them. */
    static method CollectKeys(jobs: map<JobId, Job>) returns (keys: map<string, JobId>)
      requires forall id :: id in jobs ==> jobs[id].id == id
      ensures forall k :: k in keys ==> keys[k] in jobs && jobs[keys[k]].key == Some(k)
      ensures forall id :: id in jobs && jobs[id].key.Some? ==> jobs[id].key.value in keys
    {
      var rest := jobs.Keys;
      keys := map[];
      while rest != {}
        invariant rest <= jobs.Keys
        invariant forall k :: k in keys ==> keys[k] in jobs && jobs[keys[k]].key == Some(k)
        invariant forall id :: id in jobs && id !in rest && jobs[id].key.Some? ==> jobs[id].key.value in keys
        decreases rest
      {
        var id :| id in rest;
        if jobs[id].key.Some? {
          keys := keys[jobs[id].key.value := jobs[id].id];
        }
        rest := rest - {id};
      }
    }
  }

  /** The first i entries are in the queues of their priorities, in order. */
  ghost predicate Dealt(es: seq<Entry>, i: nat, queues: Queues) {
    i <= |es| && forall p :: queues.Of(p) == QueueFrom(es[..i], p)
  }

  lemma NothingDealt(es: seq<Entry>)
    ensures Dealt(es, 0, Queues([], [], []))
  {
  }

  lemma DealStep(es: seq<Entry>, i: nat, queues: Queues)
    requires i < |es| && Dealt(es, i, queues)
    ensures Dealt(es, i + 1, queues.Push(es[i].priority, es[i].id))
  {
    assert es[..i + 1][..i] == es[..i];
    forall p ensures queues.Push(es[i].priority, es[i].id).Of(p) == QueueFrom(es[..i + 1], p) {
    }
  }

  lemma AllDealt(es: seq<Entry>, queues: Queues)
    requires Dealt(es, |es|, queues)
    ensures forall p :: queues.Of(p) == QueueFrom(es, p)
  {
    assert es[..|es|] == es;
  }

  /** The jobs of the first i rows, each as some row has it. */
  ghost predicate JobsRead(rows: seq<Row>, i: nat, jobs: map<JobId, Job>) {
    && i <= |rows|
    && (forall id :: id in jobs <==> id in IdsOf(rows[..i]))
    && (forall id :: id in jobs ==> exists k :: 0 <= k < i && rows[k].job.id == id && jobs[id] == rows[k].job)
  }

  lemma NothingRead(rows: seq<Row>, none: map<JobId, Job>)
    requires none == map[]
    ensures JobsRead(rows, 0, none) && LargestNumber(none.Keys, 0)
  {
  }

  lemma JobsReadStep(rows: seq<Row>, i: nat, jobs: map<JobId, Job>)
    requires i < |rows| && JobsRead(rows, i, jobs)
    ensures JobsRead(rows, i + 1, jobs[rows[i].job.id := rows[i].job])
  {
    ReadRow(rows, i);
    var after := jobs[rows[i].job.id := rows[i].job];
    forall id | id in after ensures exists k :: 0 <= k < i + 1 && rows[k].job.id == id && after[id] == rows[k].job {
      if id == rows[i].job.id {
        assert after[id] == rows[i].job;
      } else {
        var k :| 0 <= k < i && rows[k].job.id == id && jobs[id] == rows[k].job;
        assert after[id] == rows[k].job;
      }
    }
  }

  lemma AllRead(rows: seq<Row>, jobs: map<JobId, Job>)
    requires JobsRead(rows, |rows|, jobs)
    ensures forall id :: id in jobs <==> id in IdsOf(rows)
    ensures forall id :: id in jobs ==> exists i :: 0 <= i < |rows| && rows[i].job.id == id && jobs[id] == rows[i].job
  {
    assert rows[..|rows|] == rows;
  }

  lemma LargestGrows(ids: set<JobId>, n: nat, id: JobId)
    requires LargestNumber(ids, n)
    ensures LargestNumber(ids + {id}, Max(n, ParseNumericJobId(id)))
  {
    if n != 0 {
      var x :| x in ids && ParseNumericJobId(x) == n;
      assert x in ids + {id};
    }
    assert id in ids + {id};
  }

  ghost predicate SelectedFrom(t: Table, rows: seq<Row>) {
    && (forall i :: 0 <= i < |rows| ==> rows[i].job.id in t && t[rows[i].job.id] == rows[i])
    && (forall id :: id in t ==> exists i :: 0 <= i < |rows| && rows[i].job.id == id)
    && NoDuplicates(rows) && Sorted(rows, RowLe)
  }

  lemma SelectedIds(t: Table, rows: seq<Row>)
    requires SelectedFrom(t, rows)
    ensures NoDuplicates(IdsOf(rows))
    ensures forall id :: id in IdsOf(rows) <==> id in t
  {
    var order := IdsOf(rows);
    forall id | id in t ensures id in order {
      var i :| 0 <= i < |rows| && rows[i].job.id == id;
      assert order[i] == id;
    }
  }

  lemma OrderLoaded(t: Table, rows: seq<Row>)
    requires SelectedFrom(t, rows)
    ensures LoadedOrder(t, IdsOf(rows))
  {
    var order := IdsOf(rows);
    SelectedIds(t, rows);
    forall i | 0 <= i < |rows| ensures order[i] in t && t[order[i]] == rows[i] {
    }
  }

  lemma JobsLoaded(t: Table, rows: seq<Row>, jobs: map<JobId, Job>)
    requires SelectedFrom(t, rows) && forall id :: id in jobs <==> id in IdsOf(rows)
    requires forall id :: id in jobs ==> exists i :: 0 <= i < |rows| && rows[i].job.id == id && jobs[id] == rows[i].job
    ensures LoadedJobs(t, jobs) && forall id :: id in jobs ==> jobs[id].id == id
  {
    hide IdsOf, Sorted, NoDuplicates;
    SelectedIds(t, rows);
    assert jobs.Keys == t.Keys;
    forall id | id in t ensures jobs[id] == t[id].job && jobs[id].id == id {
      var i :| 0 <= i < |rows| && rows[i].job.id == id && jobs[id] == rows[i].job;
    }
  }

  lemma EntriesAreQueued(t: Table, rows: seq<Row>, e: Entry)
    requires SelectedFrom(t, rows)
    ensures e in EntriesOf(rows) <==>
            e.id in t && t[e.id].job.status.Queued? && t[e.id].job.id == e.id && EntryOf(t[e.id]) == e
  {
    EntriesMembers(rows, e);
    if e.id in t {
      var i :| 0 <= i < |rows| && rows[i].job.id == e.id;
    }
  }

  /** The sorted entries are exactly those of the queued rows of the table. */
  ghost predicate EntriesFrom(t: Table, es: seq<Entry>) {
    && Sorted(es, EntryLe) && NoDuplicates(es)
    && (forall i :: 0 <= i < |es| ==> es[i].id in t && EntryOf(t[es[i].id]) == es[i] && t[es[i].id].job.status.Queued?)
    && (forall id :: id in t && t[id].job.status.Queued? ==> EntryOf(t[id]) in es)
  }

  lemma SortedEntries(t: Table, rows: seq<Row>)
    requires PrimaryKey(t) && SelectedFrom(t, rows)
    ensures EntriesFrom(t, SortBy(EntriesOf(rows), EntryLe))
  {
    var es := SortBy(EntriesOf(rows), EntryLe);
    SelectedIds(t, rows);
    assert forall i, j :: 0 <= i < j < |rows| ==> IdsOf(rows)[i] != IdsOf(rows)[j];
    EntriesDistinct(rows);
    EntryLeTotal();
    SortBySorts(EntriesOf(rows), EntryLe);
    forall i | 0 <= i < |es|
      ensures es[i].id in t && EntryOf(t[es[i].id]) == es[i] && t[es[i].id].job.status.Queued?
    {
      assert es[i] in es;
      EntriesAreQueued(t, rows, es[i]);
    }
    forall id | id in t && t[id].job.status.Queued? ensures EntryOf(t[id]) in es {
      EntriesAreQueued(t, rows, EntryOf(t[id]));
    }
  }

  lemma QueueFromEntries(t: Table, es: seq<Entry>, p: Priority)
    requires PrimaryKey(t) && EntriesFrom(t, es)
    ensures LoadedQueue(t, QueueFrom(es, p), p)
  {
    QueueFromSorted(es, p, (id: JobId) => if id in t then EntryOf(t[id]) else Entry(p, 0, id));
    var q := QueueFrom(es, p);
    forall id ensures id in q <==> id in t && t[id].job.status.Queued? && t[id].job.priority == p {
      QueueFromMembers(es, p, id);
      if id in t && t[id].job.status.Queued? && t[id].job.priority == p {
        var k :| 0 <= k < |es| && es[k] == EntryOf(t[id]);
        assert es[k].priority == p && es[k].id == id;
      }
    }
  }

  lemma QueueLoaded(t: Table, rows: seq<Row>, p: Priority)
    requires PrimaryKey(t) && SelectedFrom(t, rows)
    ensures LoadedQueue(t, QueueFrom(SortBy(EntriesOf(rows), EntryLe), p), p)
  {
    SortedEntries(t, rows);
    QueueFromEntries(t, SortBy(EntriesOf(rows), EntryLe), p);
  }
}
