/**
 * The task_outbox table: its rows, and every SQL statement that touches them as a
 * function from table to table. Postgres runs one statement atomically, so the
 * dispatcher (Dispatcher) and the protocol (OutboxProtocol) both use these functions.
 * Times are ticks of Clock.
 */
module OutboxTable {
  import Collections
  import opened Clock
  import opened Wrappers

  const MAX_I64 := 0x7FFF_FFFF_FFFF_FFFF

  datatype TaskCommand = DeleteArchiveObjects(objectKeys: seq<string>)

  // The stored JSON: either what serialising a command gives, or a document that
  // no longer deserialises (with the deserialiser's complaint).
  datatype Payload = Encoded(command: TaskCommand) | Malformed(complaint: string)

  datatype Status = Pending | Running | Dead

  datatype Row = Row(
    payload: Payload,
    status: Status,
    attempts: nat,
    nextRetryAt: int,
    lastError: Option<string>,
    updatedAt: int)

  type Table = map<int, Row>

  // Duration::as_secs().min(i64::MAX), as a number of ticks.
  function Interval(seconds: nat): nat {
    (if seconds <= MAX_I64 then seconds else MAX_I64) * TICKS_PER_SECOND
  }

  predicate IsDue(row: Row, now: int) {
    row.status == Pending && row.nextRetryAt <= now
  }

  function Due(table: Table, now: int): set<int> {
    set id | id in table && IsDue(table[id], now)
  }

  function NewRow(payload: Payload, now: int): Row {
    Row(payload, Pending, 0, now, None, now)
  }

  function ClaimedRow(row: Row, now: int): Row {
    row.(status := Running, updatedAt := now)
  }

  function PutBackRow(row: Row, delay: nat, now: int): Row {
    row.(status := Pending, nextRetryAt := now + Interval(delay), updatedAt := now)
  }

  function DeadRow(row: Row, error: string, now: int): Row {
    row.(status := Dead, attempts := row.attempts + 1, lastError := Some(error), updatedAt := now)
  }

  const RECLAIM_NOTE := "reclaimed stale running task during recovery"

  function ReclaimedRow(row: Row, now: int): Row {
    var note :=
      if row.lastError.None? || row.lastError.value == "" then RECLAIM_NOTE
      else row.lastError.value + "\n" + RECLAIM_NOTE;
    row.(status := Pending, nextRetryAt := now, lastError := Some(note), updatedAt := now)
  }

  predicate IsStale(row: Row, timeout: nat, now: int) {
    row.status == Running && row.updatedAt < now - Interval(timeout)
  }

  // UPDATE ... SET status = Running over the rows already chosen.
  function ClaimRows(table: Table, ids: set<int>, now: int): Table {
    map id | id in table :: if id in ids then ClaimedRow(table[id], now) else table[id]
  }

  // UPDATE ... WHERE id = ANY($3): no status guard.
  function PutBackRows(table: Table, ids: set<int>, delay: nat, now: int): Table {
    map id | id in table :: if id in ids then PutBackRow(table[id], delay, now) else table[id]
  }

  // UPDATE ... WHERE id = $4: no status guard, no effect on a missing row.
  function RequeueRetryable(table: Table, id: int, error: string, delay: nat, now: int): Table {
    if id !in table then table
    else
      var row := table[id];
      table[id := PutBackRow(row, delay, now).(attempts := row.attempts + 1, lastError := Some(error))]
  }

  // UPDATE ... WHERE id = $3: no status guard, no effect on a missing row.
  function MarkDead(table: Table, id: int, error: string, now: int): Table {
    if id !in table then table else table[id := DeadRow(table[id], error, now)]
  }

  function DeleteRow(table: Table, id: int): Table {
    table - {id}
  }

  // A zero timeout switches reclaiming off.
  function Reclaim(table: Table, timeout: nat, now: int): Table {
    if timeout == 0 then table else
      map id | id in table ::
        if IsStale(table[id], timeout, now) then ReclaimedRow(table[id], now) else table[id]
  }

  function Stale(table: Table, timeout: nat, now: int): set<int> {
    if timeout == 0 then {} else set id | id in table && IsStale(table[id], timeout, now)
  }

  // ---------------------------------------------------------------- what a row tells afterwards

  // The row waits, and is due from that moment on.
  ghost predicate WaitsUntil(row: Row, start: int) {
    forall t :: IsDue(row, t) <==> t >= start
  }

  /** A row put back is due again after so many seconds, and its history is kept. */
  lemma PutBackWaits(row: Row, delay: nat, now: int)
    requires delay <= MAX_I64
    ensures WaitsUntil(PutBackRow(row, delay, now), now + delay * 1_000_000)
    ensures
      var after := PutBackRow(row, delay, now);
      after.payload == row.payload && after.attempts == row.attempts && after.lastError == row.lastError
  {
  }

  /** A claimed row is never due, and only its status and time have changed. */
  lemma ClaimedNeverDue(row: Row, now: int)
    ensures forall t :: !IsDue(ClaimedRow(row, now), t)
    ensures
      var after := ClaimedRow(row, now);
      && after.status == Running && after.updatedAt == now && after.payload == row.payload
      && after.attempts == row.attempts && after.lastError == row.lastError && after.nextRetryAt == row.nextRetryAt
  {
  }

  /**
   * Reclaiming: exactly the Running rows that have not been touched for longer than the
   * timeout are due from now on, with a note behind their last error; a zero timeout
   * changes nothing.
   */
  lemma ReclaimTells(table: Table, timeout: nat, now: int, id: int)
    requires id in table && timeout <= MAX_I64
    ensures Reclaim(table, timeout, now).Keys == table.Keys
    ensures
      var before, after := table[id], Reclaim(table, timeout, now)[id];
      var note := "reclaimed stale running task during recovery";
      if timeout != 0 && before.status == Running && now - before.updatedAt > timeout * 1_000_000 then
        && WaitsUntil(after, now) && after.payload == before.payload && after.attempts == before.attempts
        && after.updatedAt == now && after.lastError.Some?
        && (before.lastError in {None, Some("")} ==> after.lastError.value == note)
        && (before.lastError !in {None, Some("")} ==> after.lastError.value == before.lastError.value + "\n" + note)
      else after == before
  {
  }

  /** ORDER BY id ASC LIMIT n: the n lowest of a set of ids. */
  ghost predicate IsLowest(picked: set<int>, ids: set<int>, n: nat) {
    && picked <= ids
    && |picked| == (if n <= |ids| then n else |ids|)
    && forall p, q :: p in picked && q in ids && q !in picked ==> p < q
  }

  lemma {:induction false} FindLowest(ids: set<int>) returns (low: int)
    requires ids != {}
    ensures low in ids && forall x :: x in ids ==> low <= x
  {
    var y := Collections.Pick(ids);
    if ids == {y} {
      low := y;
    } else {
      assert ids - {y} != {};
      var m := FindLowest(ids - {y});
      low := if m <= y then m else y;
      assert forall x :: x in ids ==> x == y || x in ids - {y};
    }
  }

  lemma HasLowest(ids: set<int>)
    requires ids != {}
    ensures exists m :: m in ids && forall x :: x in ids ==> m <= x
  {
    var low := FindLowest(ids);
  }

  function Minimum(ids: set<int>): (m: int)
    requires ids != {}
    ensures m in ids && forall x :: x in ids ==> m <= x
  {
    HasLowest(ids);
    var m :| m in ids && forall x :: x in ids ==> m <= x; m
  }

  /** The ids in ascending order, as SELECT ... ORDER BY id returns them. */
  function Ascending(ids: set<int>): (s: seq<int>)
    ensures |s| == |ids|
    ensures forall x :: x in s <==> x in ids
    ensures forall i, j :: 0 <= i < j < |s| ==> s[i] < s[j]
    decreases |ids|
  {
    if ids == {} then []
    else
      var m := Minimum(ids);
      [m] + Ascending(ids - {m})
  }

  function Elements(s: seq<int>): set<int> {
    set x | x in s
  }

  lemma PrefixIsLowest(s: seq<int>, ids: set<int>, n: nat, k: nat)
    requires |s| == |ids| && forall x :: x in s <==> x in ids
    requires forall i, j :: 0 <= i < j < |s| ==> s[i] < s[j]
    requires k == if n <= |ids| then n else |ids|
    ensures IsLowest(Elements(s[..k]), ids, n)
  {
    DistinctPrefixSize(s, k);
    assert forall i :: 0 <= i < k ==> s[i] in s[..k];
    forall p, q | p in s[..k] && q in ids && q !in s[..k] ensures p < q {
      var i :| 0 <= i < k && s[i] == p;
      var j :| 0 <= j < |s| && s[j] == q;
    }
  }

  // ORDER BY id LIMIT n.
  function FirstIds(ids: set<int>, n: nat): seq<int> {
    Ascending(ids)[..if n <= |ids| then n else |ids|]
  }

  lemma FirstIdsAreLowest(ids: set<int>, n: nat)
    ensures |FirstIds(ids, n)| <= n && IsLowest(Elements(FirstIds(ids, n)), ids, n)
    ensures forall i :: 0 <= i < |FirstIds(ids, n)| ==> FirstIds(ids, n)[i] in ids
    ensures forall i, j :: 0 <= i < j < |FirstIds(ids, n)| ==> FirstIds(ids, n)[i] < FirstIds(ids, n)[j]
  {
    var s, k := Ascending(ids), if n <= |ids| then n else |ids|;
    PrefixIsLowest(s, ids, n, k);
    assert forall i :: 0 <= i < k ==> s[i] in s;
  }

  lemma {:induction false} DistinctPrefixSize(s: seq<int>, k: nat)
    requires k <= |s|
    requires forall i, j :: 0 <= i < j < |s| ==> s[i] != s[j]
    ensures |Elements(s[..k])| == k
  {
    if k == 0 {
      assert Elements(s[..0]) == {};
    } else {
      DistinctPrefixSize(s, k - 1);
      assert s[..k] == s[..k - 1] + [s[k - 1]];
      assert Elements(s[..k]) == Elements(s[..k - 1]) + {s[k - 1]};
    }
  }

  /** Only one set of ids can be the n lowest, so a pump has no choice of rows. */
  lemma LowestIsUnique(a: set<int>, b: set<int>, ids: set<int>, n: nat)
    requires IsLowest(a, ids, n) && IsLowest(b, ids, n)
    ensures a == b
  {
    if a != b {
      var p := Collections.PickDifference(a, b);
      var q := Collections.PickDifference(b, a);
    }
  }
}
