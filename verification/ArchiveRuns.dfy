/**
 * The create and delete handlers as runs of the reconciliation protocol: what their
 * contracts say they do to table and bucket, a legal sequence of protocol steps does. A
 * create copies its files one after the other and commits later, and its run is timely
 * exactly if at the commit no sweep would list one of the committed copies.
 */
module ArchiveRuns {
  import opened ArchiveFiles
  import opened ArchiveHandlers
  import opened Clock
  import opened Collections
  import opened Json
  import opened ObjectKeys
  import opened ObjectStorage
  import opened Reconciliation
  import opened Wrappers

  // Bucket and table of a handler agree with the protocol's state.
  ghost predicate Mirrors(s: State, objects: map<string, int>, files: map<Uuid, FileRow>) {
    StoreMirrors(s.store, objects) && FilesMirror(s.files, files)
  }

  ghost predicate StoreMirrors(store: map<Key, int>, objects: map<string, int>) {
    forall k: Key :: k.Archive? ==> KeyMirrors(store, objects, k)
  }

  ghost predicate KeyMirrors(store: map<Key, int>, objects: map<string, int>, k: Key) {
    (k in store <==> Text(k) in objects) && (k in store ==> objects[Text(k)] == store[k])
  }

  ghost predicate FilesMirror(table: map<Uuid, Uuid>, files: map<Uuid, FileRow>) {
    && table.Keys == files.Keys
    && forall id :: id in files ==> files[id] == FileRow(table[id], ArchiveDestKey(table[id], id))
  }

  // Some legal run leads from s to t, and it is timely exactly if `timely` says so.
  ghost predicate Runs(s: State, t: State, minAge: nat, timely: bool) {
    exists steps ::
      Legal(s, steps, minAge) && After(s, steps, minAge) == t && (TimelyRun(s, steps, minAge) <==> timely)
  }

  lemma StepThenRuns(s: State, step: Step, t: State, minAge: nat, timely: bool)
    requires Enabled(s, step, minAge) && Runs(Apply(s, step, minAge), t, minAge, timely)
    ensures Runs(s, t, minAge, Timely(s, step, minAge) && timely)
  {
    var next := Apply(s, step, minAge);
    var rest :| Legal(next, rest, minAge) && After(next, rest, minAge) == t
      && (TimelyRun(next, rest, minAge) <==> timely);
    Prefixed(s, step, rest, minAge);
    assert ([step] + rest)[1..] == rest;
  }

  lemma RunsInOne(s: State, step: Step, minAge: nat)
    requires Enabled(s, step, minAge)
    ensures Runs(s, Apply(s, step, minAge), minAge, Timely(s, step, minAge))
  {
    var next := Apply(s, step, minAge);
    assert Legal(next, [], minAge) && After(next, [], minAge) == next && TimelyRun(next, [], minAge);
    StepThenRuns(s, step, next, minAge, true);
  }

  // ---------------------------------------------------------------- copying

  // What the contract of the create handler says of bucket and file table: it listed the
  // keys of `mentioned` and, if it stored the record, stored the files `plan`.
  ghost predicate CreateEffect(record: Uuid, mentioned: set<Uuid>, plan: set<Uuid>, stored: bool,
                               objects0: map<string, int>, objects1: map<string, int>,
                               files0: map<Uuid, FileRow>, files1: map<Uuid, FileRow>, times: Period) {
    && CopiesAt(objects0, objects1, ArchiveFiles.KeysFor(record, mentioned), times) && plan <= mentioned
    && if stored then Stored(objects1, files0, files1, record, plan, times) else files1 == files0
  }

  lemma CreateHasEffect(parse: UuidParser, listOrder: Fields, copyOrder: Fields, data: Json,
                        session: Option<Uuid>, record: Uuid, stored: bool, expected: seq<string>,
                        objects0: map<string, int>, objects1: map<string, int>,
                        files0: map<Uuid, FileRow>, files1: map<Uuid, FileRow>, times: Period)
    requires forall f :: f in listOrder <==> f in copyOrder
    requires CreateLeaves(parse, listOrder, copyOrder, data, session, record, stored, expected,
                          objects0, objects1, files0, files1, times)
    ensures CreateEffect(record, IdsInFields(parse, listOrder, data), IdsToStore(parse, copyOrder, data, session),
                         stored, objects0, objects1, files0, files1, times)
  {
    PlanIsMentioned(parse, copyOrder, data);
    OrderIsIrrelevant(parse, copyOrder, listOrder, data);
  }

  ghost function Keyed(record: Uuid, ids: set<Uuid>): set<Key> {
    set id | id in ids :: Archive(record, id)
  }

  // The listed keys under which there is an object of that period, with their times.
  ghost function Copied(record: Uuid, mentioned: set<Uuid>, objects: map<string, int>, times: Period): map<Key, int> {
    map k | k in Keyed(record, mentioned) && Placed(objects, Text(k), times) :: objects[Text(k)]
  }

  // A create that has copied `done` by the time `now`.
  ghost function Creating(s: State, record: Uuid, expected: set<Key>, done: map<Key, int>, now: int): State {
    s.(now := now, used := s.used + {record}, creates := s.creates[record := Create(expected, done)],
       store := s.store + done)
  }

  // The earliest copy still to come.
  lemma {:induction false} FindEarliest(todo: map<Key, int>, keys: set<Key>) returns (first: Key)
    requires keys != {} && keys <= todo.Keys
    ensures first in keys && forall k :: k in keys ==> todo[first] <= todo[k]
    decreases |keys|
  {
    var y := Pick(keys);
    if keys == {y} {
      first := y;
    } else {
      assert keys - {y} != {};
      var m := FindEarliest(todo, keys - {y});
      first := if todo[m] <= todo[y] then m else y;
      assert forall k :: k in keys ==> k == y || k in keys - {y};
    }
  }

  lemma WaitLeads(s: State, record: Uuid, expected: set<Key>, done: map<Key, int>, now: int, later: int, minAge: nat)
    requires now <= later
    ensures Apply(Creating(s, record, expected, done, now), Tick(later - now), minAge) ==
      Creating(s, record, expected, done, later)
  {
  }

  lemma CopyLeads(s: State, record: Uuid, expected: set<Key>, done: map<Key, int>, key: Key, now: int, minAge: nat)
    requires key in expected && key !in done
    ensures
      var here := Creating(s, record, expected, done, now);
      && Enabled(here, Copy(record, key), minAge)
      && Apply(here, Copy(record, key), minAge) == Creating(s, record, expected, done[key := now], now)
  {
    assert s.store + done[key := now] == (s.store + done)[key := now];
  }

  lemma WaitThenRuns(s: State, record: Uuid, expected: set<Key>, done: map<Key, int>, now: int, later: int,
                     minAge: nat, final: State, timely: bool)
    requires now <= later && Runs(Creating(s, record, expected, done, later), final, minAge, timely)
    ensures Runs(Creating(s, record, expected, done, now), final, minAge, timely)
  {
    WaitLeads(s, record, expected, done, now, later, minAge);
    StepThenRuns(Creating(s, record, expected, done, now), Tick(later - now), final, minAge, timely);
  }

  lemma CopyThenRuns(s: State, record: Uuid, expected: set<Key>, done: map<Key, int>, key: Key, time: int,
                     minAge: nat, final: State, timely: bool)
    requires key in expected && key !in done
    requires Runs(Creating(s, record, expected, done[key := time], time), final, minAge, timely)
    ensures Runs(Creating(s, record, expected, done, time), final, minAge, timely)
  {
    CopyLeads(s, record, expected, done, key, time, minAge);
    StepThenRuns(Creating(s, record, expected, done, time), Copy(record, key), final, minAge, timely);
  }

  lemma WaitAndCopy(s: State, record: Uuid, expected: set<Key>, done: map<Key, int>, key: Key, now: int, time: int,
                    minAge: nat, final: State, timely: bool)
    requires key in expected && key !in done && now <= time
    requires Runs(Creating(s, record, expected, done[key := time], time), final, minAge, timely)
    ensures Runs(Creating(s, record, expected, done, now), final, minAge, timely)
  {
    CopyThenRuns(s, record, expected, done, key, time, minAge, final, timely);
    WaitThenRuns(s, record, expected, done, now, time, minAge, final, timely);
  }

  // The copies one after the other, each at its time, and then the wait for what follows.
  lemma {:induction false} CopiesRun(s: State, record: Uuid, expected: set<Key>, done: map<Key, int>,
                                     todo: map<Key, int>, now: int, later: int, minAge: nat, final: State, timely: bool)
    requires todo.Keys <= expected && done.Keys !! todo.Keys && now <= later
    requires forall k :: k in todo ==> now <= todo[k] <= later
    requires Runs(Creating(s, record, expected, done + todo, later), final, minAge, timely)
    ensures Runs(Creating(s, record, expected, done, now), final, minAge, timely)
    decreases |todo.Keys|
  {
    if todo.Keys == {} {
      NothingMore(done, todo);
      WaitThenRuns(s, record, expected, done, now, later, minAge, final, timely);
    } else {
      var key, more, rest := TakeEarliest(done, todo);
      CopiesRun(s, record, expected, more, rest, todo[key], later, minAge, final, timely);
      WaitAndCopy(s, record, expected, done, key, now, todo[key], minAge, final, timely);
    }
  }

  lemma TakeEarliest(done: map<Key, int>, todo: map<Key, int>)
    returns (key: Key, more: map<Key, int>, rest: map<Key, int>)
    requires todo.Keys != {} && done.Keys !! todo.Keys
    ensures key in todo && key !in done && more == done[key := todo[key]] && more + rest == done + todo
    ensures rest.Keys <= todo.Keys && |rest.Keys| < |todo.Keys| && more.Keys !! rest.Keys
    ensures forall k :: k in rest ==> todo[key] <= rest[k] == todo[k]
  {
    key := FindEarliest(todo, todo.Keys);
    MoveOne(done, todo, key);
    OneKeyLess(todo, key);
    more, rest := done[key := todo[key]], todo - {key};
  }

  // ---------------------------------------------------------------- create

  // What a create that ends at `now` leaves behind.
  ghost function Created(s: State, record: Uuid, expected: set<Key>, copied: map<Key, int>, plan: set<Uuid>,
                         stored: bool, compensated: bool, now: int): State {
    s.(now := now, used := s.used + {record}, store := s.store + copied,
       files := if stored then s.files + map id | id in plan :: record else s.files,
       doomed := if !stored && compensated then s.doomed + expected else s.doomed)
  }

  // At the commit a sweep would not list any committed copy.
  ghost predicate InTime(record: Uuid, plan: set<Uuid>, objects: map<string, int>, now: int, minAge: nat) {
    forall id :: id in plan && ArchiveDestKey(record, id) in objects ==>
      !OldEnough(Seconds(now), Seconds(objects[ArchiveDestKey(record, id)]), minAge)
  }

  lemma LastStepLeads(s: State, record: Uuid, expected: set<Key>, copied: map<Key, int>, plan: set<Uuid>,
                      stored: bool, compensated: bool, now: int, minAge: nat)
    requires record !in s.creates && plan !! s.files.Keys
    requires stored ==> forall id :: id in plan ==> Archive(record, id) in copied
    ensures
      var here := Creating(s, record, expected, copied, now);
      var step := if stored then Commit(record, plan) else AbortCreate(record, compensated);
      && Enabled(here, step, minAge)
      && Apply(here, step, minAge) == Created(s, record, expected, copied, plan, stored, compensated, now)
  {
    assert s.creates[record := Create(expected, copied)] - {record} == s.creates;
  }

  lemma CommitIsTimelyIff(s: State, record: Uuid, mentioned: set<Uuid>, plan: set<Uuid>, objects: map<string, int>,
                          times: Period, now: int, minAge: nat)
    requires plan <= mentioned && forall id :: id in plan ==> Placed(objects, ArchiveDestKey(record, id), times)
    ensures forall id :: id in plan ==> Archive(record, id) in Copied(record, mentioned, objects, times)
    ensures
      var here := Creating(s, record, Keyed(record, mentioned), Copied(record, mentioned, objects, times), now);
      Timely(here, Commit(record, plan), minAge) <==> InTime(record, plan, objects, now, minAge)
  {
    var copied := Copied(record, mentioned, objects, times);
    forall id | id in plan
      ensures Archive(record, id) in copied && copied[Archive(record, id)] == objects[ArchiveDestKey(record, id)]
    {
      assert Text(Archive(record, id)) == ArchiveDestKey(record, id);
    }
  }

  lemma CreatedMirrors(s: State, record: Uuid, mentioned: set<Uuid>, plan: set<Uuid>, stored: bool, compensated: bool,
                       objects0: map<string, int>, objects1: map<string, int>,
                       files0: map<Uuid, FileRow>, files1: map<Uuid, FileRow>, times: Period, now: int)
    requires Mirrors(s, objects0, files0)
    requires CreateEffect(record, mentioned, plan, stored, objects0, objects1, files0, files1, times)
    ensures
      var copied := Copied(record, mentioned, objects1, times);
      Mirrors(Created(s, record, Keyed(record, mentioned), copied, plan, stored, compensated, now), objects1, files1)
  {
    var store := s.store + Copied(record, mentioned, objects1, times);
    forall k: Key | k.Archive? ensures KeyMirrors(store, objects1, k) {
      assert KeyMirrors(s.store, objects0, k);
      KeyAfterCopies(record, mentioned, objects0, objects1, times, k);
    }
  }

  // A key either is one of the copies made in that period, or is as it was.
  lemma KeyAfterCopies(record: Uuid, mentioned: set<Uuid>, objects0: map<string, int>, objects1: map<string, int>,
                       times: Period, k: Key)
    requires k.Archive? && CopiesAt(objects0, objects1, ArchiveFiles.KeysFor(record, mentioned), times)
    ensures k !in Copied(record, mentioned, objects1, times) ==>
      (Text(k) in objects1 <==> Text(k) in objects0) && (Text(k) in objects1 ==> objects1[Text(k)] == objects0[Text(k)])
  {
    if Text(k) in ArchiveFiles.KeysFor(record, mentioned) && Placed(objects1, Text(k), times) {
      var id :| id in mentioned && Text(k) == ArchiveDestKey(record, id);
      ArchiveTextsAreDistinct(k, Archive(record, id));
    }
  }

  lemma EffectIsProtocolRun(s: State, record: Uuid, mentioned: set<Uuid>, plan: set<Uuid>, stored: bool,
                            compensated: bool, objects0: map<string, int>, objects1: map<string, int>,
                            files0: map<Uuid, FileRow>, files1: map<Uuid, FileRow>, times: Period, now: int,
                            minAge: nat)
    returns (after: State)
    requires Mirrors(s, objects0, files0) && record !in s.used && record !in s.creates
    requires CreateEffect(record, mentioned, plan, stored, objects0, objects1, files0, files1, times)
    requires s.now == times.start <= times.end <= now
    ensures Runs(s, after, minAge, stored ==> InTime(record, plan, objects1, now, minAge))
    ensures Mirrors(after, objects1, files1)
    ensures after.now == now && after.used == s.used + {record} && after.creates == s.creates
    ensures after.sweeps == s.sweeps
    ensures after.doomed == if !stored && compensated then s.doomed + Keyed(record, mentioned) else s.doomed
  {
    var expected, copied := Keyed(record, mentioned), Copied(record, mentioned, objects1, times);
    // A create that stores nothing commits nothing.
    var ids := if stored then plan else {};
    after := Created(s, record, expected, copied, ids, stored, compensated, now);
    var timely := stored ==> InTime(record, plan, objects1, now, minAge);
    CommitIsTimelyIff(s, record, mentioned, ids, objects1, times, now, minAge);
    LastStepRuns(s, record, expected, copied, ids, stored, compensated, now, minAge, timely);
    BeginAndCopiesRun(s, record, expected, copied, now, minAge, after, timely);
    CreatedMirrors(s, record, mentioned, plan, stored, compensated, objects0, objects1, files0, files1, times, now);
  }

  lemma LastStepRuns(s: State, record: Uuid, expected: set<Key>, copied: map<Key, int>, ids: set<Uuid>,
                     stored: bool, compensated: bool, now: int, minAge: nat, timely: bool)
    requires record !in s.creates && ids !! s.files.Keys
    requires stored ==> forall id :: id in ids ==> Archive(record, id) in copied
    requires
      timely <==> (stored ==> Timely(Creating(s, record, expected, copied, now), Commit(record, ids), minAge))
    ensures
      var after := Created(s, record, expected, copied, ids, stored, compensated, now);
      Runs(Creating(s, record, expected, copied, now), after, minAge, timely)
  {
    var step := if stored then Commit(record, ids) else AbortCreate(record, compensated);
    LastStepLeads(s, record, expected, copied, ids, stored, compensated, now, minAge);
    RunsInOne(Creating(s, record, expected, copied, now), step, minAge);
  }

  lemma BeginAndCopiesRun(s: State, record: Uuid, expected: set<Key>, copied: map<Key, int>, now: int, minAge: nat,
                          final: State, timely: bool)
    requires record !in s.used && (forall k :: k in expected ==> k.Archive? && k.record == record)
    requires copied.Keys <= expected && s.now <= now && forall k :: k in copied ==> s.now <= copied[k] <= now
    requires Runs(Creating(s, record, expected, copied, now), final, minAge, timely)
    ensures Runs(s, final, minAge, timely)
  {
    NothingBefore(copied);
    CopiesRun(s, record, expected, map[], copied, s.now, now, minAge, final, timely);
    BeginLeads(s, record, expected, minAge);
    StepThenRuns(s, BeginCreate(record, expected), final, minAge, timely);
  }

  lemma BeginLeads(s: State, record: Uuid, expected: set<Key>, minAge: nat)
    requires record !in s.used && forall k :: k in expected ==> k.Archive? && k.record == record
    ensures Enabled(s, BeginCreate(record, expected), minAge)
    ensures Apply(s, BeginCreate(record, expected), minAge) == Creating(s, record, expected, map[], s.now)
  {
    assert s.store + map[] == s.store;
  }

  /**
   * A create is a protocol run. From any state that mirrors bucket and table, whatever the
   * handler's contract allows for a record id never used, beginning, copying each file at
   * its time, and committing or giving up at some later time `now` leads to a state that
   * mirrors what the handler leaves. The run is timely if and only if nothing is committed
   * that a sweep starting at the commit would list.
   */
  lemma CreateIsProtocolRun(s: State, parse: UuidParser, listOrder: Fields, copyOrder: Fields, data: Json,
                            session: Option<Uuid>, record: Uuid, stored: bool, compensated: bool,
                            expected: seq<string>, objects0: map<string, int>, objects1: map<string, int>,
                            files0: map<Uuid, FileRow>, files1: map<Uuid, FileRow>, times: Period, now: int,
                            minAge: nat)
    returns (after: State)
    requires Mirrors(s, objects0, files0) && record !in s.used && record !in s.creates
    requires forall f :: f in listOrder <==> f in copyOrder
    requires CreateLeaves(parse, listOrder, copyOrder, data, session, record, stored, expected,
                          objects0, objects1, files0, files1, times)
    requires s.now == times.start <= times.end <= now
    ensures
      var plan := IdsToStore(parse, copyOrder, data, session);
      Runs(s, after, minAge, stored ==> InTime(record, plan, objects1, now, minAge))
    ensures Mirrors(after, objects1, files1)
    ensures after.now == now && after.used == s.used + {record} && after.creates == s.creates
    ensures after.sweeps == s.sweeps
    ensures
      var mentioned := Keyed(record, IdsInFields(parse, listOrder, data));
      after.doomed == if !stored && compensated then s.doomed + mentioned else s.doomed
  {
    CreateHasEffect(parse, listOrder, copyOrder, data, session, record, stored, expected,
                    objects0, objects1, files0, files1, times);
    after := EffectIsProtocolRun(
      s, record, IdsInFields(parse, listOrder, data), IdsToStore(parse, copyOrder, data, session), stored, compensated,
      objects0, objects1, files0, files1, times, now, minAge);
  }

  /** So a create in time, or one that stores nothing, leaves no dangling row behind, now or later. */
  lemma TimelyRunsAreSafe(s: State, after: State, minAge: nat)
    requires Inv(s, minAge) && Runs(s, after, minAge, true)
    ensures Inv(after, minAge) && NoDangling(after)
  {
    var steps :| Legal(s, steps, minAge) && After(s, steps, minAge) == after && TimelyRun(s, steps, minAge);
    FilesNeverDangle(s, steps, minAge);
  }

  // ---------------------------------------------------------------- delete

  /**
   * A delete is a protocol run: the rows go, and later those objects that the handler
   * managed to delete; what it leaves is doomed. It is always timely.
   */
  lemma DeleteIsProtocolRun(s: State, record: Uuid, objects: map<string, int>, files: map<Uuid, FileRow>,
                            gone: set<string>, minAge: nat)
    returns (after: State)
    requires Mirrors(s, objects, files) && record !in s.creates && gone <= KeysOfRecord(files, record)
    ensures Runs(s, after, minAge, true) && Mirrors(after, objects - gone, WithoutRecord(files, record))
    ensures after ==
      s.(files := after.files, store := after.store, doomed := s.doomed + Keyed(record, RowsOf(s, record)))
  {
    var destroyed := set k | k in Keyed(record, RowsOf(s, record)) && Text(k) in gone;
    var deleted := Apply(s, DeleteRecord(record), minAge);
    after := Apply(deleted, Destroy(destroyed), minAge);
    RunsInOne(deleted, Destroy(destroyed), minAge);
    StepThenRuns(s, DeleteRecord(record), after, minAge, true);
    forall k: Key | k.Archive? ensures KeyMirrors(after.store, objects - gone, k) {
      assert KeyMirrors(s.store, objects, k);
      DestroyedIffGone(s, record, files, gone, k);
    }
  }

  lemma DestroyedIffGone(s: State, record: Uuid, files: map<Uuid, FileRow>, gone: set<string>, k: Key)
    requires FilesMirror(s.files, files) && gone <= KeysOfRecord(files, record) && k.Archive?
    ensures Text(k) in gone ==> k in Keyed(record, RowsOf(s, record))
  {
    if Text(k) in gone {
      var id :| id in files && files[id].record == record && files[id].objectKey == Text(k);
      ArchiveTextsAreDistinct(k, Archive(record, id));
    }
  }
}
