/**
 * TaskDispatcher: the producer side of the outbox. Methods run against a Database whose
 * clock stands still for the call and whose statements do not fail; what other
 * processes, crashes and failing statements can do is in OutboxProtocol.
 */
module Dispatcher {
  import opened Wrappers
  import opened OutboxTable

  datatype QueuedTask = QueuedTask(outboxId: Option<int>, command: TaskCommand)

  function FromOutbox(id: int, command: TaskCommand): QueuedTask {
    QueuedTask(Some(id), command)
  }

  /** The bounded mpsc channel. */
  class Channel {
    const capacity: nat
    var queue: seq<QueuedTask>
    var closed: bool

    constructor (capacity: nat)
      ensures this.capacity == capacity && queue == [] && !closed
    {
      this.capacity := capacity;
      queue := [];
      closed := false;
    }

    // try_reserve: a slot exists and the receiver is still there.
    predicate HasSlot()
      reads this
    {
      !closed && |queue| < capacity
    }

    function FreeSlots(): nat
      reads this
    {
      if closed || capacity <= |queue| then 0 else capacity - |queue|
    }

    method Send(task: QueuedTask)
      requires HasSlot()
      modifies this`queue
      ensures queue == old(queue) + [task]
    {
      queue := queue + [task];
    }
  }

  class Database {
    var outbox: Table
    var nextId: int
    var now: int

    ghost predicate Valid()
      reads this
    {
      forall id :: id in outbox ==> id < nextId
    }

    constructor (now: int)
      ensures Valid() && outbox == map[] && nextId == 1 && this.now == now
    {
      outbox, nextId, this.now := map[], 1, now;
    }

    method InsertOutbox(payload: Payload) returns (id: int)
      requires Valid()
      modifies this`outbox, this`nextId
      ensures Valid()
      ensures id == old(nextId) && id !in old(outbox) && nextId == id + 1
      ensures outbox == old(outbox)[id := NewRow(payload, now)]
    {
      id := nextId;
      outbox := outbox[id := NewRow(payload, now)];
      nextId := nextId + 1;
    }

    // The compare-and-set claim; the number of rows it changed.
    method ClaimIfPending(id: int) returns (changed: nat)
      modifies this`outbox
      ensures changed == (if id in old(outbox) && old(outbox)[id].status == Pending then 1 else 0)
      ensures outbox == if changed == 1 then ClaimRows(old(outbox), {id}, now) else old(outbox)
    {
      if id in outbox && outbox[id].status == Pending {
        outbox := ClaimRows(outbox, {id}, now);
        changed := 1;
      } else {
        changed := 0;
      }
    }

    // WITH picked AS (... LIMIT $2 FOR UPDATE SKIP LOCKED) UPDATE ... RETURNING: the rows
    // come back in no particular order.
    method ClaimBatch(limit: nat) returns (rows: seq<(int, Payload)>)
      modifies this`outbox
      ensures |rows| <= limit && IsLowest(RowIds(rows), Due(old(outbox), now), limit)
      ensures forall i, j :: 0 <= i < j < |rows| ==> rows[i].0 != rows[j].0
      ensures forall r :: r in rows ==> r.0 in old(outbox) && r.1 == old(outbox)[r.0].payload
      ensures outbox == ClaimRows(old(outbox), RowIds(rows), now)
    {
      FirstIdsAreLowest(Due(outbox, now), limit);
      rows := RowsOf(outbox, FirstIds(Due(outbox, now), limit));
      outbox := ClaimRows(outbox, RowIds(rows), now);
    }

    method PutBack(ids: seq<int>, delay: nat)
      modifies this`outbox
      ensures outbox == PutBackRows(old(outbox), Elements(ids), delay, now)
    {
      outbox := PutBackRows(outbox, Elements(ids), delay, now);
    }

    method Bury(id: int, error: string)
      modifies this`outbox
      ensures outbox == MarkDead(old(outbox), id, error, now)
    {
      outbox := MarkDead(outbox, id, error, now);
    }

    method ReclaimStale(timeout: nat) returns (changed: nat)
      modifies this`outbox
      ensures outbox == Reclaim(old(outbox), timeout, now)
      ensures changed == |Stale(old(outbox), timeout, now)|
    {
      changed := |Stale(outbox, timeout, now)|;
      outbox := Reclaim(outbox, timeout, now);
    }

    // SELECT id, payload ... ORDER BY id ASC.
    method SelectDue() returns (rows: seq<(int, Payload)>)
      ensures |rows| == |DueIds(outbox, now)|
      ensures forall i :: 0 <= i < |rows| ==>
        DueIds(outbox, now)[i] == rows[i].0 && rows[i].0 in outbox && rows[i].1 == outbox[rows[i].0].payload
    {
      var ids := DueIds(outbox, now);
      rows := RowsOf(outbox, ids);
    }
  }

  function RowIds(rows: seq<(int, Payload)>): set<int> {
    set r | r in rows :: r.0
  }

  function RowsOf(table: Table, ids: seq<int>): (rows: seq<(int, Payload)>)
    requires forall i :: 0 <= i < |ids| ==> ids[i] in table
    ensures |rows| == |ids| && RowIds(rows) == Elements(ids)
    ensures forall i :: 0 <= i < |ids| ==> rows[i] == (ids[i], table[ids[i]].payload)
  {
    var rows := seq(|ids|, i requires 0 <= i < |ids| => (ids[i], table[ids[i]].payload));
    assert forall i :: 0 <= i < |ids| ==> rows[i].0 == ids[i] && rows[i] in rows;
    rows
  }

  function TaskIds(tasks: seq<QueuedTask>): set<int> {
    set t | t in tasks && t.outboxId.Some? :: t.outboxId.value
  }

  // ---------------------------------------------------------------- one pump

  // `tasks` are entries for distinct rows of `table`, each carrying its row's id and command.
  ghost predicate Carries(tasks: seq<QueuedTask>, table: Table) {
    && (forall i :: 0 <= i < |tasks| ==>
          && tasks[i].outboxId.Some?
          && tasks[i].outboxId.value in table
          && table[tasks[i].outboxId.value].payload == Encoded(tasks[i].command))
    && (forall i, j :: 0 <= i < j < |tasks| ==> tasks[i].outboxId != tasks[j].outboxId)
  }

  function UndecodableNote(payload: Payload): string
    requires payload.Malformed?
  {
    "invalid outbox payload: " + payload.complaint
  }

  // What became of one claimed row.
  datatype Fate = Enqueued | Undecodable | NoSlot

  ghost predicate HasFate(before: Row, after: Row, sent: bool, fate: Fate, now: int) {
    match fate
    case Enqueued => sent && before.payload.Encoded? && after == ClaimedRow(before, now)
    case Undecodable =>
      !sent && before.payload.Malformed?
        && after == DeadRow(ClaimedRow(before, now), UndecodableNote(before.payload), now)
    case NoSlot => !sent && after == PutBackRow(ClaimedRow(before, now), 1, now)
  }

  // The same column by column: when the row is due again, and what its history says.
  ghost predicate FateTells(before: Row, after: Row, fate: Fate, now: int) {
    && after.payload == before.payload && after.updatedAt == now
    && match fate
       case Enqueued =>
         && after.status == Running && after.attempts == before.attempts
         && after.lastError == before.lastError && after.nextRetryAt == before.nextRetryAt
       case Undecodable =>
         && after.status == Dead && after.attempts == before.attempts + 1 && before.payload.Malformed?
         && after.lastError == Some("invalid outbox payload: " + before.payload.complaint)
       case NoSlot =>
         && WaitsUntil(after, now + 1_000_000) && after.attempts == before.attempts
         && after.lastError == before.lastError
  }

  lemma HasFateTells(before: Row, after: Row, sent: bool, fate: Fate, now: int)
    requires HasFate(before, after, sent, fate, now)
    ensures FateTells(before, after, fate, now)
  {
    PutBackWaits(ClaimedRow(before, now), 1, now);
    ClaimedNeverDue(before, now);
  }

  // Every row of `table` keeps its place; only `picked` rows change, each by its fate.
  ghost predicate Accounted(before: Table, after: Table, picked: set<int>, sent: set<int>, fates: map<int, Fate>,
                            now: int) {
    && after.Keys == before.Keys
    && fates.Keys == picked && picked <= before.Keys && sent <= picked
    && (forall id :: id in before && id !in picked ==> after[id] == before[id])
    && (forall id :: id in picked ==> HasFate(before[id], after[id], id in sent, fates[id], now))
  }

  lemma AccountedTells(before: Table, after: Table, picked: set<int>, sent: set<int>, fates: map<int, Fate>, now: int)
    requires Accounted(before, after, picked, sent, fates, now)
    ensures forall id :: id in fates ==>
      id in before && id in after && FateTells(before[id], after[id], fates[id], now)
  {
    forall id | id in fates ensures id in before && FateTells(before[id], after[id], fates[id], now) {
      HasFateTells(before[id], after[id], id in sent, fates[id], now);
    }
  }

  /** The three fates cannot be confused: they leave Running, Dead and Pending rows. */
  lemma FateIsUnique(before: Row, after: Row, sent: bool, a: Fate, b: Fate, now: int)
    requires HasFate(before, after, sent, a, now) && HasFate(before, after, sent, b, now)
    ensures a == b
    ensures a == Enqueued <==> after.status == Running
    ensures a == Undecodable <==> after.status == Dead
    ensures a == NoSlot <==> after.status == Pending
  {
  }

  class TaskDispatcher {
    const tx: Channel
    const pool: Database

    constructor (tx: Channel, pool: Database)
      ensures this.tx == tx && this.pool == pool
    {
      this.tx, this.pool := tx, pool;
    }

    /**
     * Stores the command, then tries to hand it over at once: with a free slot the new
     * row is Running and the queue's last entry carries it, otherwise it waits as Pending.
     */
    method Submit(command: TaskCommand) returns (ghost id: int)
      requires pool.Valid()
      modifies tx`queue, pool`outbox, pool`nextId
      ensures pool.Valid() && id !in old(pool.outbox)
      ensures
        var stored := NewRow(Encoded(command), pool.now);
        var handed := old(tx.HasSlot());
        && pool.outbox == old(pool.outbox)[id := if handed then ClaimedRow(stored, pool.now) else stored]
        && tx.queue == old(tx.queue) + (if handed then [FromOutbox(id, command)] else [])
      ensures
        var row := pool.outbox[id];
        && row.payload == Encoded(command) && row.attempts == 0 && row.lastError == None
        && if !tx.closed && |old(tx.queue)| < tx.capacity then row.status == Running && row.updatedAt == pool.now
           else WaitsUntil(row, pool.now)
    {
      var outboxId := pool.InsertOutbox(Encoded(command));
      ghost var won := TryEnqueue(outboxId, command);
      id := outboxId;
      assert pool.outbox.Keys == old(pool.outbox).Keys + {id};
    }

    method TryEnqueue(id: int, command: TaskCommand) returns (ghost won: bool)
      modifies tx`queue, pool`outbox
      ensures won <==>
        && !tx.closed && |old(tx.queue)| < tx.capacity
        && id in old(pool.outbox) && old(pool.outbox)[id].status == Pending
      ensures won ==> pool.outbox == ClaimRows(old(pool.outbox), {id}, pool.now)
      ensures won ==> tx.queue == old(tx.queue) + [FromOutbox(id, command)]
      ensures !won ==> pool.outbox == old(pool.outbox) && tx.queue == old(tx.queue)
    {
      won := false;
      if tx.HasSlot() {
        var changed := pool.ClaimIfPending(id);
        if changed == 1 {
          tx.Send(FromOutbox(id, command));
          won := true;
        }
      }
    }

    /**
     * One pump claims the batchSize lowest due rows and accounts for each of them.
     * Rows go back to Pending only when the queue has no slot left at the end.
     */
    method PumpOutboxOnce(batchSize: nat) returns (enqueued: nat, ghost picked: set<int>, ghost fates: map<int, Fate>)
      modifies tx`queue, pool`outbox
      ensures IsLowest(picked, Due(old(pool.outbox), pool.now), batchSize)
      ensures |old(tx.queue)| <= |tx.queue| && tx.queue[..|old(tx.queue)|] == old(tx.queue)
      ensures
        var sent := tx.queue[|old(tx.queue)|..];
        && enqueued == |sent|
        && Carries(sent, old(pool.outbox))
        && Accounted(old(pool.outbox), pool.outbox, picked, TaskIds(sent), fates, pool.now)
      ensures forall id :: id in fates ==>
        && id in old(pool.outbox) && id in pool.outbox
        && FateTells(old(pool.outbox)[id], pool.outbox[id], fates[id], pool.now)
      ensures (exists id :: id in fates && fates[id] == NoSlot) ==> tx.closed || |tx.queue| >= tx.capacity
      ensures !tx.closed && |old(tx.queue)| + batchSize <= tx.capacity ==>
        forall id :: id in fates ==> fates[id] != NoSlot
      ensures |old(tx.queue)| <= tx.capacity ==> |tx.queue| <= tx.capacity
    {
      picked, fates := {}, map[];
      enqueued := 0;
      if batchSize == 0 {
        assert tx.queue[|tx.queue|..] == [];
        return;
      }

      ghost var before := pool.outbox;
      var rows := pool.ClaimBatch(batchSize);
      picked := RowIds(rows);
      ghost var claimed := pool.outbox;
      var next: nat;
      ghost var sent: seq<QueuedTask>;
      enqueued, next, sent, fates := DispatchRows(rows);
      ghost var was := pool.outbox;
      ghost var seen := RowIds(rows[..next]);
      var remaining := seq(|rows| - next, i requires 0 <= i < |rows| - next => rows[next + i].0);
      RemainingIds(rows, next, remaining);
      if remaining != [] {
        pool.PutBack(remaining, 1);
      }
      PutBackRest(before, was, pool.outbox, picked, seen, TaskIds(sent), fates, pool.now);
      fates := map id | id in picked :: if id in seen then fates[id] else NoSlot;
      assert tx.queue[|old(tx.queue)|..] == sent;
      CarriesEarlier(sent, before, picked, pool.now);
      AccountedTells(before, pool.outbox, picked, TaskIds(sent), fates, pool.now);
    }

    // The pump's loop over the claimed rows, up to the first one that finds no slot.
    method DispatchRows(rows: seq<(int, Payload)>)
      returns (enqueued: nat, next: nat, ghost sent: seq<QueuedTask>, ghost fates: map<int, Fate>)
      requires forall i, j :: 0 <= i < j < |rows| ==> rows[i].0 != rows[j].0
      requires forall r :: r in rows ==> ClaimedAs(pool.outbox, r, pool.now)
      modifies tx`queue, pool`outbox
      ensures enqueued <= next <= |rows| && (next < |rows| ==> !tx.HasSlot())
      ensures enqueued == |sent| && tx.queue == old(tx.queue) + sent && Carries(sent, old(pool.outbox))
      ensures Settled(old(pool.outbox), pool.outbox, RowIds(rows[..next]), TaskIds(sent), fates, pool.now)
      ensures |old(tx.queue)| <= tx.capacity ==> |tx.queue| <= tx.capacity
    {
      enqueued, next, sent, fates := 0, 0, [], map[];
      while next < |rows|
        invariant enqueued <= next <= |rows|
        invariant tx.queue == old(tx.queue) + sent && enqueued == |sent|
        invariant Carries(sent, old(pool.outbox))
        invariant Settled(old(pool.outbox), pool.outbox, RowIds(rows[..next]), TaskIds(sent), fates, pool.now)
        invariant |old(tx.queue)| <= tx.capacity ==> |tx.queue| <= tx.capacity
        decreases |rows| - next
      {
        var (id, payload) := rows[next];
        assert ClaimedAs(old(pool.outbox), rows[next], pool.now);
        RowIdsGrow(rows, next);
        ghost var was := pool.outbox;
        match payload {
          case Malformed(complaint) =>
            pool.Bury(id, "invalid outbox payload: " + complaint);
            SettleOne(old(pool.outbox), was, pool.outbox, RowIds(rows[..next]), sent, fates, id, pool.now);
            fates := fates[id := Undecodable];
          case Encoded(command) =>
            if !tx.HasSlot() {
              return;
            }
            SendOne(old(pool.outbox), was, RowIds(rows[..next]), sent, fates, id, command, pool.now);
            tx.Send(FromOutbox(id, command));
            sent := sent + [FromOutbox(id, command)];
            enqueued := enqueued + 1;
            fates := fates[id := Enqueued];
        }
        next := next + 1;
      }
    }

    /**
     * Recovery at startup: reclaim, then offer every due row in id order. The lowest
     * decodable rows fill the free slots; the first undecodable payload aborts the call.
     */
    method RecoverOutboxTasks(timeout: nat) returns (result: Result<OutboxRecoveryResult, string>)
      modifies tx`queue, pool`outbox
      ensures
        var table := Reclaim(old(pool.outbox), timeout, pool.now);
        var due := DueIds(table, pool.now);
        var stop := FirstUndecodable(table, due);
        var k := Min(stop, old(tx.FreeSlots()));
        && tx.queue == old(tx.queue) + Entries(table, due[..k])
        && pool.outbox == ClaimRows(table, Elements(due[..k]), pool.now)
        && (stop == |due| ==> result == Ok(OutboxRecoveryResult(|Stale(old(pool.outbox), timeout, pool.now)|, |due|)))
        && (stop < |due| ==> result.Err?)
      ensures forall id :: id in old(pool.outbox) ==>
        id in pool.outbox && RecoveryTells(old(pool.outbox)[id], pool.outbox[id], timeout, pool.now)
    {
      RecoveredRowsTell(pool.outbox, timeout, pool.now);
      var reclaimed := pool.ReclaimStale(timeout);
      var rows := pool.SelectDue();
      ghost var due := DueIds(pool.outbox, pool.now);
      var complaint := OfferRows(rows, due);
      if complaint.Some? {
        return Err(complaint.value);
      }
      result := Ok(OutboxRecoveryResult(reclaimed, |rows|));
    }

    // Recovery's loop: a compare-and-set for each selected row until one fails to decode.
    method OfferRows(rows: seq<(int, Payload)>, ghost ids: seq<int>) returns (complaint: Option<string>)
      requires |rows| == |ids| && forall i, j :: 0 <= i < j < |ids| ==> ids[i] < ids[j]
      requires forall i :: 0 <= i < |ids| ==>
        ids[i] in pool.outbox && pool.outbox[ids[i]].status == Pending
          && rows[i] == (ids[i], pool.outbox[ids[i]].payload)
      modifies tx`queue, pool`outbox
      ensures
        var table := old(pool.outbox);
        var stop := FirstUndecodable(table, ids);
        && Recovered(table, ids, Min(stop, old(tx.FreeSlots())), old(tx.queue), tx.queue, pool.outbox, pool.now)
        && (complaint.None? <==> stop == |ids|)
    {
      ghost var table, free := pool.outbox, tx.FreeSlots();
      ghost var stop := FirstUndecodable(table, ids);
      RecoveredNone(table, ids, tx.queue, pool.now);
      var i := 0;
      while i < |rows|
        invariant 0 <= i <= stop
        invariant Recovered(table, ids, Min(i, free), old(tx.queue), tx.queue, pool.outbox, pool.now)
        invariant tx.FreeSlots() == free - Min(i, free)
      {
        var (id, payload) := rows[i];
        if payload.Malformed? {
          return Some(payload.complaint);
        }
        OfferOne(id, payload.command, table, ids, i, free, old(tx.queue));
        i := i + 1;
      }
      complaint := None;
    }

    // One row of that loop: claimed while there are slots, left alone afterwards.
    method OfferOne(id: int, command: TaskCommand, ghost table: Table, ghost ids: seq<int>, ghost i: nat,
                    ghost free: nat, ghost queue0: seq<QueuedTask>)
      requires forall j, k :: 0 <= j < k < |ids| ==> ids[j] < ids[k]
      requires forall j :: 0 <= j < |ids| ==> ids[j] in table && table[ids[j]].status == Pending
      requires i < FirstUndecodable(table, ids) && id == ids[i] && command == table[id].payload.command
      requires Recovered(table, ids, Min(i, free), queue0, tx.queue, pool.outbox, pool.now)
      requires tx.FreeSlots() == free - Min(i, free)
      modifies tx`queue, pool`outbox
      ensures Recovered(table, ids, Min(i + 1, free), queue0, tx.queue, pool.outbox, pool.now)
      ensures tx.FreeSlots() == free - Min(i + 1, free)
    {
      if i < free {
        RecoveredNext(table, ids, i, queue0, tx.queue, pool.outbox, pool.now);
      }
      ghost var won := TryEnqueue(id, command);
    }

    /** The periodic pull: reclaim what went stale, then pump. */
    method PullOutboxTasks(batchSize: nat, timeout: nat)
      returns (pulled: nat, ghost picked: set<int>, ghost fates: map<int, Fate>)
      modifies tx`queue, pool`outbox
      ensures |old(tx.queue)| <= |tx.queue| && tx.queue[..|old(tx.queue)|] == old(tx.queue)
      ensures
        var table := Reclaim(old(pool.outbox), timeout, pool.now);
        var sent := tx.queue[|old(tx.queue)|..];
        && pulled == |sent|
        && IsLowest(picked, Due(table, pool.now), batchSize)
        && Carries(sent, table)
        && Accounted(table, pool.outbox, picked, TaskIds(sent), fates, pool.now)
    {
      var reclaimed := pool.ReclaimStale(timeout);
      pulled, picked, fates := PumpOutboxOnce(batchSize);
    }
  }

  // What recovery leaves of a row: it is Running, claimed now out of a wait that was over
  // or a claim that was stale; or it waits as before, or from now on if its claim was stale.
  ghost predicate RecoveryTells(before: Row, after: Row, timeout: nat, now: int) {
    var stale := timeout != 0 && before.status == Running && now - before.updatedAt > Min(timeout, MAX_I64) * 1_000_000;
    && after.payload == before.payload && after.attempts == before.attempts
    && (after != before ==> after.updatedAt == now && (stale || IsDue(before, now)))
    && (stale ==> WaitsUntil(after, now) || after.status == Running)
    && (after.status == Running && !stale && before.status == Running ==> after == before)
  }

  lemma RecoveredRowsTell(table: Table, timeout: nat, now: int)
    ensures
      var reclaimed := Reclaim(table, timeout, now);
      forall k: nat, id :: k <= |DueIds(reclaimed, now)| && id in table ==>
        RecoveryTells(table[id], ClaimRows(reclaimed, Elements(DueIds(reclaimed, now)[..k]), now)[id], timeout, now)
  {
  }

  function DueIds(table: Table, now: int): (ids: seq<int>)
    ensures |ids| == |Due(table, now)|
    ensures forall i :: 0 <= i < |ids| ==> ids[i] in table && IsDue(table[ids[i]], now)
    ensures forall i, j :: 0 <= i < j < |ids| ==> ids[i] < ids[j]
    ensures Elements(ids) == Due(table, now)
  {
    var ids := Ascending(Due(table, now));
    assert forall i :: 0 <= i < |ids| ==> ids[i] in ids;
    ids
  }

  // The first k of `ids` have been claimed and queued, and nothing else happened.
  ghost predicate Recovered(table: Table, ids: seq<int>, k: nat, queue0: seq<QueuedTask>, queue: seq<QueuedTask>,
                            outbox: Table, now: int)
    requires forall i :: 0 <= i < |ids| ==> ids[i] in table
    requires k <= FirstUndecodable(table, ids)
  {
    && queue == queue0 + Entries(table, ids[..k])
    && outbox == ClaimRows(table, Elements(ids[..k]), now)
  }

  lemma RecoveredNone(table: Table, ids: seq<int>, queue: seq<QueuedTask>, now: int)
    requires forall i :: 0 <= i < |ids| ==> ids[i] in table
    ensures Recovered(table, ids, 0, queue, queue, table, now)
  {
  }

  lemma RecoveredNext(table: Table, ids: seq<int>, i: nat, queue0: seq<QueuedTask>, queue: seq<QueuedTask>,
                      outbox: Table, now: int)
    requires forall j, k :: 0 <= j < k < |ids| ==> ids[j] < ids[k]
    requires forall j :: 0 <= j < |ids| ==> ids[j] in table
    requires i < FirstUndecodable(table, ids) && Recovered(table, ids, i, queue0, queue, outbox, now)
    ensures ids[i] in outbox && outbox[ids[i]] == table[ids[i]]
    ensures
      var task := FromOutbox(ids[i], table[ids[i]].payload.command);
      Recovered(table, ids, i + 1, queue0, queue + [task], ClaimRows(outbox, {ids[i]}, now), now)
  {
    assert ids[..i + 1] == ids[..i] + [ids[i]];
    ClaimNext(table, ids[..i], ids[i], now);
    EntriesNext(table, ids, i);
  }

  lemma ClaimNext(table: Table, ids: seq<int>, id: int, now: int)
    requires id in table && id !in ids
    ensures
      var before := ClaimRows(table, Elements(ids), now);
      && id in before && before[id] == table[id]
      && ClaimRows(before, {id}, now) == ClaimRows(table, Elements(ids + [id]), now)
  {
    assert Elements(ids + [id]) == Elements(ids) + {id};
    assert ClaimRows(table, Elements(ids), now)[id] == table[id];
  }

  lemma EntriesNext(table: Table, ids: seq<int>, i: nat)
    requires i < |ids| && forall j :: 0 <= j <= i ==> ids[j] in table && table[ids[j]].payload.Encoded?
    ensures Entries(table, ids[..i + 1]) ==
            Entries(table, ids[..i]) + [FromOutbox(ids[i], table[ids[i]].payload.command)]
  {
  }

  datatype OutboxRecoveryResult = OutboxRecoveryResult(reclaimedRunning: nat, recoveredPending: nat)

  function Min(a: nat, b: nat): nat {
    if a <= b then a else b
  }

  /** How many leading rows recovery can decode. */
  function FirstUndecodable(table: Table, ids: seq<int>): (n: nat)
    requires forall i :: 0 <= i < |ids| ==> ids[i] in table
    ensures n <= |ids|
    ensures forall i :: 0 <= i < n ==> table[ids[i]].payload.Encoded?
    ensures n < |ids| ==> table[ids[n]].payload.Malformed?
  {
    if ids == [] || table[ids[0]].payload.Malformed? then 0
    else 1 + FirstUndecodable(table, ids[1..])
  }

  function Entries(table: Table, ids: seq<int>): (tasks: seq<QueuedTask>)
    requires forall i :: 0 <= i < |ids| ==> ids[i] in table && table[ids[i]].payload.Encoded?
    ensures |tasks| == |ids|
    ensures forall i :: 0 <= i < |ids| ==> tasks[i] == FromOutbox(ids[i], table[ids[i]].payload.command)
  {
    seq(|ids|, i requires 0 <= i < |ids| => FromOutbox(ids[i], table[ids[i]].payload.command))
  }

  // ---------------------------------------------------------------- draining

  // What one pump with free slots did: which rows, and what became of them.
  datatype PumpRecord = PumpRecord(picked: set<int>, sent: set<int>, fates: map<int, Fate>)

  ghost predicate FreePump(before: Table, after: Table, record: PumpRecord, batch: nat, now: int) {
    && IsLowest(record.picked, Due(before, now), batch)
    && Accounted(before, after, record.picked, record.sent, record.fates, now)
    && (forall id :: id in record.fates ==> record.fates[id] != NoSlot)
  }

  lemma FreePumpSettlesPicked(before: Table, after: Table, record: PumpRecord, batch: nat, now: int)
    requires FreePump(before, after, record, batch, now)
    ensures Due(after, now) == Due(before, now) - record.picked
    ensures |Due(after, now)| == if batch <= |Due(before, now)| then |Due(before, now)| - batch else 0
  {
    forall id ensures id in Due(after, now) <==> id in Due(before, now) && id !in record.picked {
      if id in record.picked {
        assert HasFate(before[id], after[id], id in record.sent, record.fates[id], now);
      } else if id in before {
        assert after[id] == before[id];
      }
    }
    assert Due(after, now) == Due(before, now) - record.picked;
    assert |Due(before, now) - record.picked| == |Due(before, now)| - |record.picked|;
  }

  ghost predicate FreePumps(tables: seq<Table>, records: seq<PumpRecord>, batch: nat, now: int) {
    && |tables| == |records| + 1
    && forall i :: 0 <= i < |records| ==> FreePump(tables[i], tables[i + 1], records[i], batch, now)
  }

  /** Pumps with free slots, a fixed clock and no other actor take batch rows off the due set each time. */
  lemma {:induction false} DueRowsDrain(tables: seq<Table>, records: seq<PumpRecord>, batch: nat, now: int, k: nat)
    requires FreePumps(tables, records, batch, now) && k <= |records|
    ensures |Due(tables[k], now)| == if k * batch <= |Due(tables[0], now)| then |Due(tables[0], now)| - k * batch else 0
  {
    if k > 0 {
      DueRowsDrain(tables, records, batch, now, k - 1);
      OneBatchDrains(tables, records, batch, now, k);
      OneBatchMore(batch, k);
    }
  }

  lemma OneBatchDrains(tables: seq<Table>, records: seq<PumpRecord>, batch: nat, now: int, k: nat)
    requires FreePumps(tables, records, batch, now) && 0 < k <= |records|
    ensures
      var before := |Due(tables[k - 1], now)|;
      |Due(tables[k], now)| == if batch <= before then before - batch else 0
  {
    assert FreePump(tables[k - 1], tables[k - 1 + 1], records[k - 1], batch, now);
    FreePumpSettlesPicked(tables[k - 1], tables[k], records[k - 1], batch, now);
  }

  lemma OneBatchMore(batch: nat, k: nat)
    requires k > 0
    ensures 0 <= (k - 1) * batch && k * batch == (k - 1) * batch + batch
  {
  }

  /** So n due rows are gone after exactly ceil(n / batch) pumps, not before. */
  lemma DrainTakesCeilingPumps(tables: seq<Table>, records: seq<PumpRecord>, batch: nat, now: int, k: nat)
    requires FreePumps(tables, records, batch, now) && k <= |records| && batch > 0
    ensures Due(tables[k], now) == {} <==> k >= (|Due(tables[0], now)| + batch - 1) / batch
  {
    DueRowsDrain(tables, records, batch, now, k);
    var n := |Due(tables[0], now)|;
    CeilingBound(n, batch, k);
    assert |Due(tables[k], now)| == 0 <==> Due(tables[k], now) == {};
  }

  lemma CeilingBound(n: nat, batch: nat, k: nat)
    requires batch > 0
    ensures k >= (n + batch - 1) / batch <==> k * batch >= n
  {
    var c := (n + batch - 1) / batch;
    assert c * batch <= n + batch - 1 < c * batch + batch;
    if k >= c {
      assert k * batch >= c * batch;
    } else {
      assert (k + 1) * batch <= c * batch;
    }
  }

  ghost predicate ClaimedAs(table: Table, row: (int, Payload), now: int) {
    && row.0 in table && table[row.0].payload == row.1
    && table[row.0] == ClaimedRow(table[row.0], now)
  }

  // The loop's progress: like Accounted, but starting from the claimed rows.
  ghost predicate Settled(claimed: Table, after: Table, seen: set<int>, sent: set<int>, fates: map<int, Fate>,
                          now: int) {
    && after.Keys == claimed.Keys
    && fates.Keys == seen && seen <= claimed.Keys && sent <= seen
    && (forall id :: id in claimed && id !in seen ==> after[id] == claimed[id])
    && (forall id :: id in seen ==> fates[id] != NoSlot && HasFate(claimed[id], after[id], id in sent, fates[id], now))
  }

  lemma SettleOne(claimed: Table, was: Table, after: Table, seen: set<int>, sent: seq<QueuedTask>,
                  fates: map<int, Fate>, id: int, now: int)
    requires Settled(claimed, was, seen, TaskIds(sent), fates, now)
    requires id in claimed && id !in seen && claimed[id].payload.Malformed?
      && claimed[id] == ClaimedRow(claimed[id], now)
    requires after == MarkDead(was, id, UndecodableNote(claimed[id].payload), now)
    ensures Settled(claimed, after, seen + {id}, TaskIds(sent), fates[id := Undecodable], now)
  {
  }

  lemma CarriesEarlier(sent: seq<QueuedTask>, before: Table, picked: set<int>, now: int)
    requires Carries(sent, ClaimRows(before, picked, now))
    ensures Carries(sent, before)
  {
    forall i | 0 <= i < |sent|
      ensures sent[i].outboxId.value in before && before[sent[i].outboxId.value].payload == Encoded(sent[i].command)
    {
      var id := sent[i].outboxId.value;
      assert ClaimRows(before, picked, now)[id].payload == Encoded(sent[i].command);
      assert id in before && ClaimRows(before, picked, now)[id] in {before[id], ClaimedRow(before[id], now)};
    }
  }

  lemma SendOne(claimed: Table, was: Table, seen: set<int>, sent: seq<QueuedTask>, fates: map<int, Fate>, id: int,
                command: TaskCommand, now: int)
    requires Settled(claimed, was, seen, TaskIds(sent), fates, now) && Carries(sent, claimed)
    requires id in claimed && id !in seen && claimed[id] == ClaimedRow(claimed[id], now)
    requires claimed[id].payload == Encoded(command)
    ensures
      var more := sent + [FromOutbox(id, command)];
      && Carries(more, claimed)
      && Settled(claimed, was, seen + {id}, TaskIds(more), fates[id := Enqueued], now)
  {
    TaskIdsGrow(sent, FromOutbox(id, command));
    forall i | 0 <= i < |sent| ensures sent[i].outboxId != Some(id) {
      assert sent[i] in sent && sent[i].outboxId.value in TaskIds(sent);
    }
  }

  lemma PutBackRest(before: Table, was: Table, after: Table, picked: set<int>, seen: set<int>, sent: set<int>,
                    fates: map<int, Fate>, now: int)
    requires picked <= before.Keys && seen <= picked
    requires Settled(ClaimRows(before, picked, now), was, seen, sent, fates, now)
    requires after == PutBackRows(was, picked - seen, 1, now) || (seen == picked && after == was)
    ensures
      var all := map id | id in picked :: if id in seen then fates[id] else NoSlot;
      Accounted(before, after, picked, sent, all, now)
  {
  }

  lemma RowIdsGrow(rows: seq<(int, Payload)>, k: nat)
    requires k < |rows|
    requires forall i, j :: 0 <= i < j < |rows| ==> rows[i].0 != rows[j].0
    ensures RowIds(rows[..k + 1]) == RowIds(rows[..k]) + {rows[k].0}
    ensures rows[k].0 !in RowIds(rows[..k]) && rows[k].0 in RowIds(rows)
  {
    assert rows[..k + 1] == rows[..k] + [rows[k]];
    assert rows[k] in rows;
  }

  lemma TaskIdsGrow(tasks: seq<QueuedTask>, task: QueuedTask)
    requires task.outboxId.Some?
    ensures TaskIds(tasks + [task]) == TaskIds(tasks) + {task.outboxId.value}
  {
    assert task in tasks + [task];
    assert forall t :: t in tasks ==> t in tasks + [task];
  }

  lemma RemainingIds(rows: seq<(int, Payload)>, k: nat, remaining: seq<int>)
    requires k <= |rows|
    requires forall i, j :: 0 <= i < j < |rows| ==> rows[i].0 != rows[j].0
    requires remaining == seq(|rows| - k, i requires 0 <= i < |rows| - k => rows[k + i].0)
    ensures Elements(remaining) == RowIds(rows) - RowIds(rows[..k])
    ensures RowIds(rows[..k]) <= RowIds(rows)
    ensures remaining == [] ==> RowIds(rows[..k]) == RowIds(rows)
  {
    ElementsAreRowIds(rows[k..], remaining);
    RowIdsSplit(rows, k);
  }

  lemma {:induction false} RowIdsSplit(rows: seq<(int, Payload)>, k: nat)
    requires k <= |rows|
    requires forall i, j :: 0 <= i < j < |rows| ==> rows[i].0 != rows[j].0
    ensures RowIds(rows[k..]) == RowIds(rows) - RowIds(rows[..k])
    ensures RowIds(rows[..k]) <= RowIds(rows)
    ensures k == |rows| ==> RowIds(rows[..k]) == RowIds(rows)
    decreases |rows| - k
  {
    if k == |rows| {
      assert rows[..k] == rows && rows[k..] == [];
    } else {
      RowIdsSplit(rows, k + 1);
      RowIdsGrow(rows, k);
      assert rows[k..] == [rows[k]] + rows[k + 1..];
      assert RowIds(rows[k..]) == {rows[k].0} + RowIds(rows[k + 1..]);
    }
  }

  lemma ElementsAreRowIds(rows: seq<(int, Payload)>, ids: seq<int>)
    requires |ids| == |rows| && forall i :: 0 <= i < |ids| ==> ids[i] == rows[i].0
    ensures Elements(ids) == RowIds(rows)
  {
    forall id | id in ids ensures id in RowIds(rows) {
      var i :| 0 <= i < |ids| && ids[i] == id;
      assert rows[i] in rows;
    }
    forall id | id in RowIds(rows) ensures id in ids {
      var r :| r in rows && r.0 == id;
      var i :| 0 <= i < |rows| && rows[i] == r;
      assert ids[i] == id;
    }
  }
}
