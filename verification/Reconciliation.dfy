/**
 * Database and bucket as one protocol: creates copy objects and then commit or abort,
 * deletes and compensations leave keys to be destroyed by somebody sooner or later, and
 * sweeps list old objects page by page, then read the database, then destroy what it
 * does not mention. Any interleaving, any crash (a create or sweep simply goes no further).
 */
module Reconciliation {
  import opened Clock
  import opened ObjectKeys
  import opened ObjectStorage

  // An object key: the destination key of one file of one record, or any other text.
  datatype Key = Archive(record: Uuid, file: Uuid) | Other(text: string)

  function Text(k: Key): string {
    match k
    case Archive(record, file) => ArchiveDestKey(record, file)
    case Other(text) => text
  }

  /** Reading destination keys as Key values loses nothing: distinct ones have distinct texts. */
  lemma ArchiveTextsAreDistinct(a: Key, b: Key)
    requires a.Archive? && b.Archive?
    ensures Text(a) == Text(b) <==> a == b
    ensures StartsWith(Text(a), ARCHIVE_PREFIX)
  {
    ArchiveDestKeyIsInjective(a.record, a.file, b.record, b.file);
    ArchiveDestKeyBelongs(a.record, a.file);
  }

  // `expected` is the list computed before copying; `copied` holds each key's first copy time.
  datatype Create = Create(expected: set<Key>, copied: map<Key, int>)

  datatype Sweep = Sweep(startedAt: int, candidates: set<Key>)

  // `files` maps a committed file id to its record; the row's object key is Archive(record, id).
  // `used` are the record ids ever handed out. `doomed` are keys some delete, outbox
  // command or sweep may still destroy at any time, any number of times.
  datatype State = State(
    now: int,
    store: map<Key, int>,
    files: map<Uuid, Uuid>,
    used: set<Uuid>,
    creates: map<Uuid, Create>,
    sweeps: map<nat, Sweep>,
    doomed: set<Key>)

  datatype Step =
    | Tick(ticks: nat)
    | BeginCreate(record: Uuid, expected: set<Key>)
    | Copy(record: Uuid, key: Key)
    | Commit(record: Uuid, ids: set<Uuid>)
    | AbortCreate(record: Uuid, compensated: bool)
    | DeleteRecord(record: Uuid)
    | Destroy(keys: set<Key>)
    | SweepBegin(sweep: nat)
    | SweepPage(sweep: nat, keys: set<Key>)
    | SweepRead(sweep: nat)
    | Elsewhere(store: map<Key, int>)

  ghost predicate Enabled(s: State, step: Step, minAge: nat) {
    match step
    case Tick(_) => true
    case BeginCreate(record, expected) =>
      record !in s.used && forall k :: k in expected ==> k.Archive? && k.record == record
    case Copy(record, key) => record in s.creates && key in s.creates[record].expected
    case Commit(record, ids) =>
      && record in s.creates && ids !! s.files.Keys
      && forall id :: id in ids ==> Archive(record, id) in s.creates[record].copied
    case AbortCreate(record, _) => record in s.creates
    case DeleteRecord(record) => record !in s.creates
    case Destroy(keys) => keys <= s.doomed
    case SweepBegin(sweep) => sweep !in s.sweeps
    case SweepPage(sweep, keys) =>
      && sweep in s.sweeps
      && forall k :: k in keys ==>
           k in s.store && OldEnough(Seconds(s.sweeps[sweep].startedAt), Seconds(s.store[k]), minAge)
    case SweepRead(sweep) => sweep in s.sweeps
    case Elsewhere(store) =>
      && (forall k :: k in store && k.Archive? ==> k in s.store && store[k] == s.store[k])
      && (forall k :: k in s.store && k.Archive? ==> k in store)
  }

  // SELECT object_key FROM sys_file.
  ghost function Referenced(s: State): set<Key> {
    set id | id in s.files :: Archive(s.files[id], id)
  }

  ghost function RowsOf(s: State, record: Uuid): set<Uuid> {
    set id | id in s.files && s.files[id] == record
  }

  ghost function KeysOfRows(record: Uuid, ids: set<Uuid>): set<Key> {
    set id | id in ids :: Archive(record, id)
  }

  ghost function Apply(s: State, step: Step, minAge: nat): State
    requires Enabled(s, step, minAge)
  {
    match step
    case Tick(ticks) => s.(now := s.now + ticks)
    case BeginCreate(record, expected) =>
      s.(used := s.used + {record}, creates := s.creates[record := Create(expected, map[])])
    case Copy(record, key) =>
      var c := s.creates[record];
      s.(store := s.store[key := s.now],
         creates := if key in c.copied then s.creates
                    else s.creates[record := c.(copied := c.copied[key := s.now])])
    case Commit(record, ids) =>
      s.(files := s.files + map id | id in ids :: record, creates := s.creates - {record})
    case AbortCreate(record, compensated) =>
      s.(creates := s.creates - {record},
         doomed := if compensated then s.doomed + s.creates[record].expected else s.doomed)
    case DeleteRecord(record) =>
      s.(files := s.files - RowsOf(s, record), doomed := s.doomed + KeysOfRows(record, RowsOf(s, record)))
    case Destroy(keys) => s.(store := s.store - keys)
    case SweepBegin(sweep) => s.(sweeps := s.sweeps[sweep := Sweep(s.now, {})])
    case SweepPage(sweep, keys) =>
      var w := s.sweeps[sweep];
      s.(sweeps := s.sweeps[sweep := w.(candidates := w.candidates + keys)])
    case SweepRead(sweep) =>
      s.(sweeps := s.sweeps - {sweep}, doomed := s.doomed + (s.sweeps[sweep].candidates - Referenced(s)))
    case Elsewhere(store) => s.(store := store)
  }

  // The assumption on creates that commit: at that moment a sweep would not yet list the
  // committed files, going by the times at which they were first copied.
  ghost predicate Timely(s: State, step: Step, minAge: nat) {
    step.Commit? && step.record in s.creates ==>
      forall id :: id in step.ids && Archive(step.record, id) in s.creates[step.record].copied ==>
        !Late(s, s.creates[step.record].copied[Archive(step.record, id)], minAge)
  }

  // A sweep that starts now lists an object of this time.
  ghost predicate Late(s: State, copiedAt: int, minAge: nat) {
    OldEnough(Seconds(s.now), Seconds(copiedAt), minAge)
  }

  /** Committing a whole second before minAge has passed since a copy is always early enough. */
  lemma EarlyCommitIsTimely(s: State, copiedAt: int, minAge: nat)
    requires s.now + TICKS_PER_SECOND <= copiedAt + minAge * TICKS_PER_SECOND && s.now >= copiedAt
    ensures !Late(s, copiedAt, minAge)
  {
    assert Seconds(s.now) * TICKS_PER_SECOND <= s.now;
    assert copiedAt < (Seconds(copiedAt) + 1) * TICKS_PER_SECOND;
  }

  ghost predicate Legal(s: State, steps: seq<Step>, minAge: nat)
    decreases |steps|
  {
    steps != [] ==> Enabled(s, steps[0], minAge) && Legal(Apply(s, steps[0], minAge), steps[1..], minAge)
  }

  ghost predicate TimelyRun(s: State, steps: seq<Step>, minAge: nat)
    requires Legal(s, steps, minAge)
    decreases |steps|
  {
    steps != [] ==> Timely(s, steps[0], minAge) && TimelyRun(Apply(s, steps[0], minAge), steps[1..], minAge)
  }

  ghost function After(s: State, steps: seq<Step>, minAge: nat): State
    requires Legal(s, steps, minAge)
    decreases |steps|
  {
    if steps == [] then s else After(Apply(s, steps[0], minAge), steps[1..], minAge)
  }

  lemma Prefixed(s: State, step: Step, rest: seq<Step>, minAge: nat)
    requires Enabled(s, step, minAge) && Legal(Apply(s, step, minAge), rest, minAge)
    ensures Legal(s, [step] + rest, minAge)
    ensures After(s, [step] + rest, minAge) == After(Apply(s, step, minAge), rest, minAge)
  {
    assert ([step] + rest)[1..] == rest;
  }

  // ---------------------------------------------------------------- the invariant

  ghost predicate NoDangling(s: State) {
    forall id :: id in s.files ==> Archive(s.files[id], id) in s.store
  }

  ghost predicate FilesSafe(s: State) {
    && NoDangling(s)
    && (forall id :: id in s.files ==> Archive(s.files[id], id) !in s.doomed)
    && (forall id :: id in s.files ==> s.files[id] in s.used && s.files[id] !in s.creates)
  }

  ghost predicate CreatesSafe(s: State, minAge: nat) {
    forall r :: r in s.creates ==> CreateSafe(s, r, s.creates[r], minAge)
  }

  ghost predicate CreateSafe(s: State, r: Uuid, c: Create, minAge: nat) {
    && r in s.used
    && (forall k :: k in c.expected ==> k.Archive? && k.record == r)
    && (forall k :: k in c.copied ==>
        k in c.expected && c.copied[k] <= s.now && (Late(s, c.copied[k], minAge) || Kept(s, k)))
  }

  ghost predicate Kept(s: State, k: Key) {
    k in s.store && k !in s.doomed
  }

  // Keys that exist, are doomed or are candidates belong to records handed out before; if
  // the record is still being created, the create itself copied them, and not after the
  // store's time for them. A candidate's copy is too old for the create to commit.
  ghost predicate KeyKnown(s: State, k: Key) {
    k.Archive? ==> k.record in s.used && (k.record in s.creates ==> k in s.creates[k.record].copied)
  }

  ghost predicate KeysKnown(s: State, minAge: nat) {
    && (forall k :: k in s.store ==>
          KeyKnown(s, k) && (k.Archive? && k.record in s.creates ==> s.creates[k.record].copied[k] <= s.store[k]))
    && (forall k :: k in s.doomed ==> KeyKnown(s, k))
    && (forall w :: w in s.sweeps ==> s.sweeps[w].startedAt <= s.now)
    && (forall w, k :: w in s.sweeps && k in s.sweeps[w].candidates ==>
          KeyKnown(s, k) && (k.Archive? && k.record in s.creates ==> Late(s, s.creates[k.record].copied[k], minAge)))
  }

  ghost predicate Inv(s: State, minAge: nat) {
    FilesSafe(s) && CreatesSafe(s, minAge) && KeysKnown(s, minAge)
  }

  // A start: tables and bucket agree, nothing is in progress, and ids in keys are spent.
  ghost predicate Initial(s: State) {
    && s.creates == map[] && s.sweeps == map[] && s.doomed == {}
    && NoDangling(s)
    && (forall id :: id in s.files ==> s.files[id] in s.used)
    && (forall k :: k in s.store && k.Archive? ==> k.record in s.used)
  }

  lemma StepKeepsInv(s: State, step: Step, minAge: nat)
    requires Inv(s, minAge) && Enabled(s, step, minAge) && Timely(s, step, minAge)
    ensures Inv(Apply(s, step, minAge), minAge)
  {
    match step {
      case BeginCreate(record, expected) => BeginKeepsInv(s, record, expected, minAge);
      case Copy(record, key) => CopyKeepsInv(s, record, key, minAge);
      case Commit(record, ids) => CommitKeepsInv(s, record, ids, minAge);
      case AbortCreate(record, compensated) => AbortKeepsInv(s, record, compensated, minAge);
      case DeleteRecord(record) => DeleteKeepsInv(s, record, minAge);
      case SweepPage(sweep, keys) => PageKeepsInv(s, sweep, keys, minAge);
      case SweepRead(sweep) => ReadKeepsInv(s, sweep, minAge);
      case Elsewhere(store) => ElsewhereKeepsInv(s, store, minAge);
      case Tick(ticks) => TickKeepsInv(s, ticks, minAge);
      case Destroy(keys) => DestroyKeepsInv(s, keys, minAge);
      case SweepBegin(sweep) =>
    }
  }

  lemma TickKeepsInv(s: State, ticks: nat, minAge: nat)
    requires Inv(s, minAge)
    ensures Inv(Apply(s, Tick(ticks), minAge), minAge)
  {
  }

  lemma DestroyKeepsInv(s: State, keys: set<Key>, minAge: nat)
    requires Inv(s, minAge) && Enabled(s, Destroy(keys), minAge)
    ensures Inv(Apply(s, Destroy(keys), minAge), minAge)
  {
    forall k | Kept(s, k) ensures Kept(Apply(s, Destroy(keys), minAge), k) {}
  }

  lemma ElsewhereKeepsInv(s: State, store: map<Key, int>, minAge: nat)
    requires Inv(s, minAge) && Enabled(s, Elsewhere(store), minAge)
    ensures Inv(Apply(s, Elsewhere(store), minAge), minAge)
  {
    forall k: Key | k.Archive? && Kept(s, k) ensures Kept(Apply(s, Elsewhere(store), minAge), k) {}
  }

  lemma BeginKeepsInv(s: State, record: Uuid, expected: set<Key>, minAge: nat)
    requires Inv(s, minAge) && Enabled(s, BeginCreate(record, expected), minAge)
    ensures Inv(Apply(s, BeginCreate(record, expected), minAge), minAge)
  {
  }

  lemma AbortKeepsInv(s: State, record: Uuid, compensated: bool, minAge: nat)
    requires Inv(s, minAge) && Enabled(s, AbortCreate(record, compensated), minAge)
    ensures Inv(Apply(s, AbortCreate(record, compensated), minAge), minAge)
  {
  }

  lemma DeleteKeepsInv(s: State, record: Uuid, minAge: nat)
    requires Inv(s, minAge) && Enabled(s, DeleteRecord(record), minAge)
    ensures Inv(Apply(s, DeleteRecord(record), minAge), minAge)
  {
  }

  lemma ReadKeepsInv(s: State, sweep: nat, minAge: nat)
    requires Inv(s, minAge) && Enabled(s, SweepRead(sweep), minAge)
    ensures Inv(Apply(s, SweepRead(sweep), minAge), minAge)
  {
  }

  lemma CopyKeepsInv(s: State, record: Uuid, key: Key, minAge: nat)
    requires Inv(s, minAge) && Enabled(s, Copy(record, key), minAge)
    ensures Inv(Apply(s, Copy(record, key), minAge), minAge)
  {
    var s' := Apply(s, Copy(record, key), minAge);
    CopyKeepsKeysKnown(s, record, key, minAge);
    assert CreateSafe(s, record, s.creates[record], minAge);
    assert key in s.doomed ==> KeyKnown(s, key);
    forall k | Kept(s, k) || (k == key && key !in s.creates[record].copied) ensures Kept(s', k) {}
    forall r | r in s'.creates ensures CreateSafe(s', r, s'.creates[r], minAge) {
      assert CreateSafe(s, r, s.creates[r], minAge);
    }
  }

  lemma CopyKeepsKnown(s: State, record: Uuid, key: Key, minAge: nat, k: Key)
    requires Enabled(s, Copy(record, key), minAge) && KeyKnown(s, k)
    ensures
      var s' := Apply(s, Copy(record, key), minAge);
      && KeyKnown(s', k)
      && (k.Archive? && k.record in s.creates ==> s'.creates[k.record].copied[k] == s.creates[k.record].copied[k])
  {
  }

  lemma CopyKeepsKeysKnown(s: State, record: Uuid, key: Key, minAge: nat)
    requires Inv(s, minAge) && Enabled(s, Copy(record, key), minAge)
    ensures KeysKnown(Apply(s, Copy(record, key), minAge), minAge)
  {
    var s' := Apply(s, Copy(record, key), minAge);
    forall k | k in s'.store
      ensures KeyKnown(s', k)
      ensures k.Archive? && k.record in s'.creates ==> s'.creates[k.record].copied[k] <= s'.store[k]
    {
      if k != key {
        CopyKeepsKnown(s, record, key, minAge, k);
      } else {
        assert CreateSafe(s, record, s.creates[record], minAge);
      }
    }
    forall k | k in s'.doomed ensures KeyKnown(s', k) {
      CopyKeepsKnown(s, record, key, minAge, k);
    }
    forall w, k | w in s'.sweeps && k in s'.sweeps[w].candidates
      ensures KeyKnown(s', k)
      ensures k.Archive? && k.record in s'.creates ==> Late(s', s'.creates[k.record].copied[k], minAge)
    {
      CopyKeepsKnown(s, record, key, minAge, k);
    }
  }

  lemma CommitKeepsInv(s: State, record: Uuid, ids: set<Uuid>, minAge: nat)
    requires Inv(s, minAge) && Enabled(s, Commit(record, ids), minAge) && Timely(s, Commit(record, ids), minAge)
    ensures Inv(Apply(s, Commit(record, ids), minAge), minAge)
  {
    forall id | id in ids ensures Archive(record, id) in s.store && Archive(record, id) !in s.doomed {
      assert !Late(s, s.creates[record].copied[Archive(record, id)], minAge);
    }
  }

  lemma PageKeepsInv(s: State, sweep: nat, keys: set<Key>, minAge: nat)
    requires Inv(s, minAge) && Enabled(s, SweepPage(sweep, keys), minAge)
    ensures Inv(Apply(s, SweepPage(sweep, keys), minAge), minAge)
  {
    forall k | k in keys && k.Archive? && k.record in s.creates
      ensures KeyKnown(s, k) && Late(s, s.creates[k.record].copied[k], minAge)
    {
      assert k in s.store;
    }
  }

  /**
   * No dangling file: on every legal run whose committing creates are timely, every
   * committed file row's object is in the store.
   */
  lemma {:induction false} FilesNeverDangle(s: State, steps: seq<Step>, minAge: nat)
    requires Inv(s, minAge) && Legal(s, steps, minAge) && TimelyRun(s, steps, minAge)
    ensures Inv(After(s, steps, minAge), minAge)
    decreases |steps|
  {
    if steps != [] {
      StepKeepsInv(s, steps[0], minAge);
      FilesNeverDangle(Apply(s, steps[0], minAge), steps[1..], minAge);
    }
  }

  lemma NoDanglingFile(s: State, steps: seq<Step>, minAge: nat)
    requires Initial(s) && Legal(s, steps, minAge) && TimelyRun(s, steps, minAge)
    ensures NoDangling(After(s, steps, minAge))
  {
    FilesNeverDangle(s, steps, minAge);
  }

  // ---------------------------------------------------------------- when a late commit hurts

  // Runs in which no time passes and nothing is committed but this one file.
  predicate OnlyCommits(steps: seq<Step>, record: Uuid, id: Uuid) {
    forall i :: 0 <= i < |steps| ==>
      !steps[i].Tick? && (steps[i].Commit? ==> steps[i] == Commit(record, {id}))
  }

  // The create has not got beyond the file's first copy at that time.
  ghost predicate StillCopied(s: State, record: Uuid, id: Uuid, copiedAt: int) {
    && record in s.used
    && (record in s.creates ==>
          Archive(record, id) in s.creates[record].copied && s.creates[record].copied[Archive(record, id)] == copiedAt)
  }

  lemma {:induction false} OnlyThisCommitIsTimely(s: State, steps: seq<Step>, minAge: nat, record: Uuid, id: Uuid,
                                                  copiedAt: int)
    requires Legal(s, steps, minAge) && OnlyCommits(steps, record, id)
    requires StillCopied(s, record, id, copiedAt) && !Late(s, copiedAt, minAge)
    ensures TimelyRun(s, steps, minAge)
    decreases |steps|
  {
    if steps != [] {
      var next := Apply(s, steps[0], minAge);
      assert StillCopied(next, record, id, copiedAt) && next.now == s.now;
      assert forall i :: 0 <= i < |steps| - 1 ==> steps[1..][i] == steps[i + 1];
      OnlyThisCommitIsTimely(next, steps[1..], minAge, record, id, copiedAt);
    }
  }

  // A whole sweep of one object around the commit of its file.
  function SweepAround(record: Uuid, id: Uuid, sweep: nat): seq<Step> {
    var key := Archive(record, id);
    [SweepBegin(sweep)]
      + ([SweepPage(sweep, {key})] + ([SweepRead(sweep)] + ([Commit(record, {id})] + ([Destroy({key})] + []))))
  }

  // The sweep up to its reading of the database: the key is doomed, nothing else changed.
  lemma ListedAndDoomed(s: State, key: Key, sweep: nat, minAge: nat) returns (begun: State, listed: State, read: State)
    requires sweep !in s.sweeps && key in s.store && Late(s, s.store[key], minAge) && key !in Referenced(s)
    ensures Enabled(s, SweepBegin(sweep), minAge) && begun == Apply(s, SweepBegin(sweep), minAge)
    ensures Enabled(begun, SweepPage(sweep, {key}), minAge) && listed == Apply(begun, SweepPage(sweep, {key}), minAge)
    ensures Enabled(listed, SweepRead(sweep), minAge) && read == Apply(listed, SweepRead(sweep), minAge)
    ensures read == s.(doomed := s.doomed + {key})
  {
    begun := Apply(s, SweepBegin(sweep), minAge);
    listed := Apply(begun, SweepPage(sweep, {key}), minAge);
    read := Apply(listed, SweepRead(sweep), minAge);
    assert {} + {key} == {key};
    assert listed.sweeps == s.sweeps[sweep := Sweep(s.now, {key})];
    assert read.sweeps == s.sweeps;
    assert Referenced(listed) == Referenced(s);
    assert {key} - Referenced(s) == {key};
  }

  lemma LateCommitDangles(s: State, record: Uuid, id: Uuid, sweep: nat, minAge: nat)
    requires Committable(s, record, id) && sweep !in s.sweeps
    requires Late(s, s.creates[record].copied[Archive(record, id)], minAge)
    ensures Legal(s, SweepAround(record, id, sweep), minAge)
    ensures !NoDangling(After(s, SweepAround(record, id, sweep), minAge))
    ensures After(s, SweepAround(record, id, sweep), minAge).now == s.now
  {
    var key := Archive(record, id);
    assert key !in Referenced(s);
    var begun, listed, read := ListedAndDoomed(s, key, sweep, minAge);
    var commit, destroy := Commit(record, {id}), Destroy({key});
    var committed := Apply(read, commit, minAge);
    var last := Apply(committed, destroy, minAge);
    Prefixed(committed, destroy, [], minAge);
    Prefixed(read, commit, [destroy] + [], minAge);
    Prefixed(listed, SweepRead(sweep), [commit] + ([destroy] + []), minAge);
    Prefixed(begun, SweepPage(sweep, {key}), [SweepRead(sweep)] + ([commit] + ([destroy] + [])), minAge);
    Prefixed(s, SweepBegin(sweep),
             [SweepPage(sweep, {key})] + ([SweepRead(sweep)] + ([commit] + ([destroy] + []))), minAge);
    assert id in last.files && last.files[id] == record && key !in last.store;
  }

  // The file is copied, once, and its row can be committed.
  ghost predicate Committable(s: State, record: Uuid, id: Uuid) {
    && record in s.creates && id !in s.files
    && Archive(record, id) in s.creates[record].copied && Archive(record, id) in s.store
    && s.store[Archive(record, id)] == s.creates[record].copied[Archive(record, id)]
  }

  /**
   * The timing condition is exact: from any state in which a copied file can be committed
   * at once, no run that commits just that file without delay loses an object if and only
   * if a sweep starting now would not list the copy. A create can check that itself.
   */
  lemma CommitIsSafeIffNotOldEnough(s: State, record: Uuid, id: Uuid, sweep: nat, minAge: nat)
    requires Inv(s, minAge) && Committable(s, record, id) && sweep !in s.sweeps
    ensures
      (forall steps :: Legal(s, steps, minAge) && OnlyCommits(steps, record, id) ==>
       NoDangling(After(s, steps, minAge)))
      <==> !OldEnough(Seconds(s.now), Seconds(s.creates[record].copied[Archive(record, id)]), minAge)
  {
    var copiedAt := s.creates[record].copied[Archive(record, id)];
    if Late(s, copiedAt, minAge) {
      LateCommitDangles(s, record, id, sweep, minAge);
      assert OnlyCommits(SweepAround(record, id, sweep), record, id);
    } else {
      assert CreateSafe(s, record, s.creates[record], minAge);
      forall steps | Legal(s, steps, minAge) && OnlyCommits(steps, record, id)
        ensures NoDangling(After(s, steps, minAge))
      {
        OnlyThisCommitIsTimely(s, steps, minAge, record, id, copiedAt);
        FilesNeverDangle(s, steps, minAge);
      }
    }
  }

  // ---------------------------------------------------------------- why a whole second

  const LAST_TICK := TICKS_PER_SECOND - 1

  const THE_KEY := Archive(NIL_UUID, NIL_UUID)

  function EmptySystem(): State {
    State(LAST_TICK, map[], map[], {}, map[], map[], {})
  }

  // The system in the next tick after its first create has copied its one object.
  lemma CopiedOneTickAgo() returns (steps: seq<Step>, at: State)
    ensures Initial(EmptySystem()) && steps == [BeginCreate(NIL_UUID, {THE_KEY}), Copy(NIL_UUID, THE_KEY), Tick(1)]
    ensures Legal(EmptySystem(), steps, 1) && After(EmptySystem(), steps, 1) == at
    ensures at.now == TICKS_PER_SECOND && at.files == map[] && at.sweeps == map[]
    ensures at.creates == map[NIL_UUID := Create({THE_KEY}, map[THE_KEY := LAST_TICK])]
    ensures at.store == map[THE_KEY := LAST_TICK]
  {
    var s0 := EmptySystem();
    var s1 := Apply(s0, BeginCreate(NIL_UUID, {THE_KEY}), 1);
    var s2 := Apply(s1, Copy(NIL_UUID, THE_KEY), 1);
    at := Apply(s2, Tick(1), 1);
    Prefixed(s2, Tick(1), [], 1);
    Prefixed(s1, Copy(NIL_UUID, THE_KEY), [Tick(1)], 1);
    Prefixed(s0, BeginCreate(NIL_UUID, {THE_KEY}), [Copy(NIL_UUID, THE_KEY), Tick(1)], 1);
    steps := [BeginCreate(NIL_UUID, {THE_KEY}), Copy(NIL_UUID, THE_KEY), Tick(1)];
  }

  lemma {:induction false} Chained(s: State, a: seq<Step>, b: seq<Step>, minAge: nat)
    requires Legal(s, a, minAge) && Legal(After(s, a, minAge), b, minAge)
    ensures Legal(s, a + b, minAge) && After(s, a + b, minAge) == After(After(s, a, minAge), b, minAge)
    decreases |a|
  {
    if a == [] {
      assert a + b == b;
    } else {
      Chained(Apply(s, a[0], minAge), a[1..], b, minAge);
      assert (a + b)[1..] == a[1..] + b;
    }
  }

  /**
   * The age filter counts whole seconds, so committing before minAge has passed is not
   * enough: here a create commits one tick after its copy, with a minimum age of one
   * second, and its object is swept all the same.
   */
  lemma CommitWithinMinAgeCanDangle() returns (steps: seq<Step>, at: State)
    ensures Initial(EmptySystem()) && Legal(EmptySystem(), steps, 1) && After(EmptySystem(), steps, 1) == at
    ensures at.now < LAST_TICK + 1 * TICKS_PER_SECOND
    ensures !NoDangling(at)
  {
    var copied, copiedAt := CopiedOneTickAgo();
    LateCommitDangles(copiedAt, NIL_UUID, NIL_UUID, 0, 1);
    Chained(EmptySystem(), copied, SweepAround(NIL_UUID, NIL_UUID, 0), 1);
    steps := copied + SweepAround(NIL_UUID, NIL_UUID, 0);
    at := After(EmptySystem(), steps, 1);
  }
}
