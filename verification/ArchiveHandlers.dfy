/** The handlers that create and delete archive records, around the transaction and its files. */
module ArchiveHandlers {
  import opened ArchiveFiles
  import opened Errors
  import opened Json
  import opened ObjectKeys
  import opened ObjectStorage
  import opened Wrappers
  import Dispatcher
  import Outbox = OutboxTable

  // A failing commit may still have taken effect.
  datatype CommitFate = Commits | FailsUncommitted | FailsCommitted

  // What happens to one create outside its own logic: the insert of the record, the
  // session's life, each file and when it is copied, the commit, the two steps after it,
  // and the compensation.
  datatype CreateFate = CreateFate(
    inserted: bool, sessionAlive: bool, files: Faults, copyTime: nat -> int, commit: CommitFate,
    sessionDeleted: bool, enriched: bool, cleanupStored: bool)

  // And to one delete: its two statements, the commit, and the fallback.
  datatype DeleteFate = DeleteFate(read: bool, deleted: bool, commit: CommitFate, cleanupStored: bool)

  // One row has joined the outbox, with the command to delete these keys.
  ghost predicate OneMoreCommand(before: Outbox.Table, after: Outbox.Table, id: int, keys: seq<string>) {
    && id !in before && after.Keys == before.Keys + {id}
    && (forall other :: other in before ==> after[other] == before[other])
    && after[id].payload == Outbox.Encoded(Outbox.DeleteArchiveObjects(keys))
  }

  // That command, if there is one, and nothing else.
  ghost predicate OnlyCleanup(before: Outbox.Table, after: Outbox.Table, cleanup: Option<int>, keys: seq<string>) {
    match cleanup
    case None => after == before
    case Some(id) => OneMoreCommand(before, after, id, keys)
  }

  // The fallback of both handlers: have the keys deleted by a task.
  method Compensate(dispatcher: Dispatcher.TaskDispatcher, keys: seq<string>, stored: bool)
    returns (ghost cleanup: Option<int>)
    requires dispatcher.pool.Valid()
    modifies dispatcher.tx`queue, dispatcher.pool`outbox, dispatcher.pool`nextId
    ensures cleanup.Some? <==> stored
    ensures OnlyCleanup(old(dispatcher.pool.outbox), dispatcher.pool.outbox, cleanup, keys)
  {
    cleanup := None;
    if stored {
      ghost var id := dispatcher.Submit(Outbox.DeleteArchiveObjects(keys));
      cleanup := Some(id);
    }
  }

  // ---------------------------------------------------------------- create

  predicate NeedsFile(fields: Fields) {
    exists f | f in fields :: f.1.required
  }

  function IdsToStore(parse: UuidParser, fields: Fields, data: Json, session: Option<Uuid>): set<Uuid> {
    if session.Some? then IdSet(Plan(parse, fields, data)) else {}
  }

  // The part between insert and commit goes through: nothing to do without file fields or
  // session; else a live session, acceptable fields, and files that can all be stored.
  ghost predicate BodySucceeds(parse: UuidParser, fields: Fields, data: Json, session: Option<Uuid>,
                               objects: map<string, int>, files: map<Uuid, FileRow>, fate: CreateFate) {
    session.Some? && fields != [] ==>
      && fate.sessionAlive && AllAcceptable(parse, fields, data)
      && Works(session.value, Plan(parse, fields, data), objects, files, fate.files, 0)
  }

  // The exact condition under which a create leaves its record in the table.
  ghost predicate StoresRecord(parse: UuidParser, fields: Fields, data: Json, session: Option<Uuid>,
                               objects: map<string, int>, files: map<Uuid, FileRow>, fate: CreateFate) {
    && (session.None? ==> !NeedsFile(fields))
    && fate.inserted && BodySucceeds(parse, fields, data, session, objects, files, fate)
    && fate.commit != FailsUncommitted
  }

  // What a create leaves in bucket and file table: copies under listed keys, and its file
  // rows if and only if its record is stored.
  ghost predicate CreateLeaves(parse: UuidParser, listOrder: Fields, copyOrder: Fields, data: Json,
                               session: Option<Uuid>, record: Uuid, stored: bool, expected: seq<string>,
                               objects0: map<string, int>, objects1: map<string, int>,
                               files0: map<Uuid, FileRow>, files1: map<Uuid, FileRow>, times: Period) {
    && CopiesAt(objects0, objects1, ToSet(expected), times)
    && (expected == [] || ToSet(expected) == KeysFor(record, IdsInFields(parse, listOrder, data)))
    && if stored then Stored(objects1, files0, files1, record, IdsToStore(parse, copyOrder, data, session), times)
       else files1 == files0
  }

  // With a session the new file rows are exactly what the data ask for, without one there are none.
  // Then, also, no required field was left without one.
  ghost predicate StoresFiles(parse: UuidParser, fields: Fields, data: Json, session: Option<Uuid>, record: Uuid,
                              objects: map<string, int>, files0: map<Uuid, FileRow>, files: map<Uuid, FileRow>) {
    && (session.Some? ==>
          && StoresAsked(parse, fields, data, record, objects, files0, files)
          && forall f :: f in fields ==>
               WellFormed(parse, f, data) && (f.1.required ==> exists id :: Asks(parse, f, data, id)))
    && (session.None? ==> files == files0 && forall f :: f in fields ==> !f.1.required)
  }

  lemma StoredFilesAreAsked(parse: UuidParser, fields: Fields, data: Json, session: Option<Uuid>, record: Uuid,
                            objects: map<string, int>, files0: map<Uuid, FileRow>, files: map<Uuid, FileRow>,
                            times: Period)
    requires session.Some? && fields != [] ==> AllAcceptable(parse, fields, data)
    requires session.None? ==> !NeedsFile(fields)
    requires Stored(objects, files0, files, record, IdsToStore(parse, fields, data, session), times)
    ensures StoresFiles(parse, fields, data, session, record, objects, files0, files)
  {
    if session.Some? {
      StoredIsAsked(parse, fields, data, record, objects, files0, files, times);
      forall f | f in fields
        ensures WellFormed(parse, f, data) && (f.1.required ==> exists id :: Asks(parse, f, data, id))
      {
        AcceptableIff(parse, f, data);
      }
    }
  }

  /**
   * create_archive_record_handler from the check for needed files on. The record id is
   * the one the database hands out; the two field orders are two iterations of one map.
   * An error does not mean that nothing is stored: the commit may have taken effect
   * though it failed, and two steps that follow it can fail. But then no compensation is
   * stored, and whenever the record is not stored the tables are as before.
   */
  method CreateArchiveRecord(
      db: ArchiveDb, dispatcher: Dispatcher.TaskDispatcher, bucket: Bucket, parse: UuidParser,
      listOrder: Fields, copyOrder: Fields, template: Uuid, record: Uuid,
      session: Option<Uuid>, data: Json, fate: CreateFate, ghost times: Period)
    returns (error: Option<AppError>, ghost cleanup: Option<int>, ghost expected: seq<string>)
    requires dispatcher.pool.Valid() && record !in db.records
    requires (forall f :: f in listOrder <==> f in copyOrder) && forall n :: times.Has(fate.copyTime(n))
    modifies db, bucket`objects, dispatcher.tx`queue, dispatcher.pool`outbox, dispatcher.pool`nextId
    ensures record in db.records <==>
      StoresRecord(parse, copyOrder, data, session, old(bucket.objects), old(db.files), fate)
    ensures db.records == if record in db.records then old(db.records)[record := template] else old(db.records)
    ensures CreateLeaves(parse, listOrder, copyOrder, data, session, record, record in db.records, expected,
                         old(bucket.objects), bucket.objects, old(db.files), db.files, times)
    ensures record in db.records ==> (session.Some? && copyOrder != [] ==> fate.sessionAlive)
    ensures session.None? ==>
      && (error == Some(ValidationMessage("session_id")) <==> exists f :: f in copyOrder && f.1.required)
      && (record in db.records <==>
            (forall f :: f in copyOrder ==> !f.1.required) && fate.inserted && fate.commit != FailsUncommitted)
    ensures record in db.records ==>
      StoresFiles(parse, copyOrder, data, session, record, bucket.objects, old(db.files), db.files)
    ensures error.None? <==>
      && record in db.records && fate.commit == Commits
      && (session.Some? ==> fate.sessionDeleted) && (session.Some? && copyOrder != [] ==> fate.enriched)
    ensures forall k :: k in expected ==> BelongsTo(k, record)
    ensures cleanup.Some? <==>
      && expected != [] && fate.cleanupStored
      && !BodySucceeds(parse, copyOrder, data, session, old(bucket.objects), old(db.files), fate)
    ensures record in db.records ==> cleanup.None?
    ensures OnlyCleanup(old(dispatcher.pool.outbox), dispatcher.pool.outbox, cleanup, expected)
  {
    if session.None? && NeedsFile(copyOrder) {
      return Some(ValidationMessage("session_id")), None, [];
    }
    if !fate.inserted {
      return Some(UnexpectedError), None, [];
    }
    error, cleanup, expected := CreateInTransaction(
      db, dispatcher, bucket, parse, listOrder, copyOrder, template, record, session, data, fate, times);
    if record in db.records {
      StoredFilesAreAsked(parse, copyOrder, data, session, record, bucket.objects, old(db.files), db.files, times);
    }
  }

  // The handler from the inserted record on.
  method CreateInTransaction(
      db: ArchiveDb, dispatcher: Dispatcher.TaskDispatcher, bucket: Bucket, parse: UuidParser,
      listOrder: Fields, copyOrder: Fields, template: Uuid, record: Uuid,
      session: Option<Uuid>, data: Json, fate: CreateFate, ghost times: Period)
    returns (error: Option<AppError>, ghost cleanup: Option<int>, ghost expected: seq<string>)
    requires dispatcher.pool.Valid() && record !in db.records
    requires (forall f :: f in listOrder <==> f in copyOrder) && forall n :: times.Has(fate.copyTime(n))
    modifies db, bucket`objects, dispatcher.tx`queue, dispatcher.pool`outbox, dispatcher.pool`nextId
    ensures
      var works := BodySucceeds(parse, copyOrder, data, session, old(bucket.objects), old(db.files), fate);
      && (record in db.records <==> works && fate.commit != FailsUncommitted)
      && (cleanup.Some? <==> expected != [] && fate.cleanupStored && !works)
    ensures db.records == if record in db.records then old(db.records)[record := template] else old(db.records)
    ensures CreateLeaves(parse, listOrder, copyOrder, data, session, record, record in db.records, expected,
                         old(bucket.objects), bucket.objects, old(db.files), db.files, times)
    ensures error.None? <==>
      && record in db.records && fate.commit == Commits
      && (session.Some? ==> fate.sessionDeleted) && (session.Some? && copyOrder != [] ==> fate.enriched)
    ensures session.None? && error.Some? ==> error.value == UnexpectedError
    ensures forall k :: k in expected ==> BelongsTo(k, record)
    ensures OnlyCleanup(old(dispatcher.pool.outbox), dispatcher.pool.outbox, cleanup, expected)
  {
    var tx := new Transaction(db, fate.files, fate.copyTime);
    tx.records := tx.records[record := template];
    var keys;
    error, keys := CreateBody(tx, bucket, parse, listOrder, copyOrder, record, session, data, fate, times);
    cleanup, expected := None, keys;
    if error.None? {
      error := CommitAndFinish(db, tx, session.Some?, copyOrder != [] && session.Some?, fate);
    } else if keys != [] {
      cleanup := Compensate(dispatcher, keys, fate.cleanupStored);
    }
  }

  // Between the insert and the commit: with file fields and a session, the files.
  method CreateBody(
      tx: Transaction, bucket: Bucket, parse: UuidParser, listOrder: Fields, copyOrder: Fields, record: Uuid,
      session: Option<Uuid>, data: Json, fate: CreateFate, ghost times: Period)
    returns (error: Option<AppError>, keys: seq<string>)
    requires tx.fault == fate.files && tx.processed == 0 && tx.Copying(times)
    requires forall f :: f in listOrder <==> f in copyOrder
    modifies tx`files, tx`processed, bucket`objects
    ensures error.None? <==> BodySucceeds(parse, copyOrder, data, session, old(bucket.objects), old(tx.files), fate)
    ensures error.None? ==>
      Stored(bucket.objects, old(tx.files), tx.files, record, IdsToStore(parse, copyOrder, data, session), times)
    ensures CopiesAt(old(bucket.objects), bucket.objects, ToSet(keys), times)
    ensures keys == [] || ToSet(keys) == KeysFor(record, IdsInFields(parse, listOrder, data))
    ensures forall k :: k in keys ==> BelongsTo(k, record)
  {
    error, keys := None, [];
    if copyOrder != [] && session.Some? {
      error, keys := CopyFiles(tx, bucket, parse, listOrder, copyOrder, record, session.value, fate.sessionAlive, data,
                               times);
    }
  }

  // The end of a create whose body went through.
  method CommitAndFinish(db: ArchiveDb, tx: Transaction, hasSession: bool, hasFiles: bool, fate: CreateFate)
    returns (error: Option<AppError>)
    modifies db
    ensures fate.commit == FailsUncommitted ==> db.records == old(db.records) && db.files == old(db.files)
    ensures fate.commit != FailsUncommitted ==> db.records == tx.records && db.files == tx.files
    ensures error.None? <==>
      fate.commit == Commits && (hasSession ==> fate.sessionDeleted) && (hasFiles ==> fate.enriched)
    ensures error.Some? ==> error.value == UnexpectedError
  {
    if fate.commit != FailsUncommitted {
      db.records, db.files := tx.records, tx.files;
    }
    if fate.commit != Commits {
      return Some(UnexpectedError);
    }
    if hasSession && !fate.sessionDeleted {
      return Some(UnexpectedError);
    }
    if hasFiles && !fate.enriched {
      return Some(UnexpectedError);
    }
    error := None;
  }

  // The list of keys first, then the session check and the copies.
  method CopyFiles(
      tx: Transaction, bucket: Bucket, parse: UuidParser, listOrder: Fields, copyOrder: Fields, record: Uuid,
      session: Uuid, sessionAlive: bool, data: Json, ghost times: Period)
    returns (error: Option<AppError>, keys: seq<string>)
    requires tx.Copying(times)
    requires forall f :: f in listOrder <==> f in copyOrder
    modifies tx`files, tx`processed, bucket`objects
    ensures ToSet(keys) == KeysFor(record, IdsInFields(parse, listOrder, data))
    ensures forall k :: k in keys ==> BelongsTo(k, record)
    ensures CopiesAt(old(bucket.objects), bucket.objects, ToSet(keys), times)
    ensures error.None? <==>
      && sessionAlive && AllAcceptable(parse, copyOrder, data)
      && Works(session, Plan(parse, copyOrder, data), old(bucket.objects), old(tx.files), tx.fault, old(tx.processed))
    ensures error.None? ==>
      Stored(bucket.objects, old(tx.files), tx.files, record, IdSet(Plan(parse, copyOrder, data)), times)
  {
    keys := CollectArchiveObjectKeys(parse, record, listOrder, data);
    ListedKeysBelong(parse, record, listOrder, data, keys);
    if !sessionAlive {
      return Some(DataNotFound), keys;
    }
    error := tx.CreateFilesRecord(parse, bucket, session, record, copyOrder, data, times);
    PlannedKeysAreListed(parse, record, listOrder, copyOrder, data);
    CopiesJoin(old(bucket.objects), bucket.objects, bucket.objects,
               KeysFor(record, IdSet(Plan(parse, copyOrder, data))), {}, ToSet(keys), times);
  }

  lemma ListedKeysBelong(parse: UuidParser, record: Uuid, fields: Fields, data: Json, keys: seq<string>)
    requires ToSet(keys) == KeysFor(record, IdsInFields(parse, fields, data))
    ensures forall k :: k in keys ==> BelongsTo(k, record)
  {
    forall k | k in keys ensures BelongsTo(k, record) {
      assert k in ToSet(keys);
      CollectedKeysBelongToRecord(record, IdsInFields(parse, fields, data), k, record);
    }
  }

  /** Compensation covers all copies: for any two field orders, what is stored was listed. */
  lemma PlannedKeysAreListed(parse: UuidParser, record: Uuid, listOrder: Fields, copyOrder: Fields, data: Json)
    requires forall f :: f in copyOrder ==> f in listOrder
    ensures KeysFor(record, IdSet(Plan(parse, copyOrder, data))) <= KeysFor(record, IdsInFields(parse, listOrder, data))
  {
    PlanIsMentioned(parse, copyOrder, data);
    OrderIsIrrelevant(parse, copyOrder, listOrder, data);
    KeysForJoin(record, IdSet(Plan(parse, copyOrder, data)), IdsInFields(parse, listOrder, data));
  }

  // ---------------------------------------------------------------- delete

  function KeysOfRecord(files: map<Uuid, FileRow>, record: Uuid): set<string> {
    set id | id in files && files[id].record == record :: files[id].objectKey
  }

  // ON DELETE CASCADE from a record to its file rows.
  function WithoutRecord(files: map<Uuid, FileRow>, record: Uuid): map<Uuid, FileRow> {
    map id | id in files && files[id].record != record :: files[id]
  }

  predicate IsRecordOf(records: map<Uuid, Uuid>, record: Uuid, template: Uuid) {
    record in records && records[record] == template
  }

  /**
   * delete_archive_record_handler: the record and, by cascade, its file rows are gone
   * together, or nothing is; objects are touched only after a commit that succeeded, and
   * then each of the record's objects is gone or named by a stored command.
   */
  method DeleteArchiveRecord(
      db: ArchiveDb, dispatcher: Dispatcher.TaskDispatcher, bucket: Bucket,
      template: Uuid, record: Uuid, rows: seq<string>, fate: DeleteFate)
    returns (error: Option<AppError>, ghost cleanup: Option<int>, ghost gone: set<string>)
    requires dispatcher.pool.Valid()
    requires ToSet(rows) == KeysOfRecord(db.files, record)
    modifies db, bucket`objects, bucket`requests, bucket`deleted, bucket`log,
             dispatcher.tx`queue, dispatcher.pool`outbox, dispatcher.pool`nextId
    ensures error.None? <==>
      fate.read && fate.deleted && IsRecordOf(old(db.records), record, template) && fate.commit == Commits
    ensures error == Some(DataNotFound) <==>
      fate.read && fate.deleted && !IsRecordOf(old(db.records), record, template)
    ensures
      if Deletes(old(db.records), record, template, fate)
      then db.records == old(db.records) - {record} && db.files == WithoutRecord(old(db.files), record)
      else db.records == old(db.records) && db.files == old(db.files)
    ensures db.records != old(db.records) ==> record in old(db.records) && old(db.records)[record] == template
    ensures forall id :: id in old(db.files) && old(db.files)[id].record != record ==>
      id in db.files && db.files[id] == old(db.files)[id]
    ensures bucket.objects == old(bucket.objects) - gone && gone <= ToSet(rows)
    ensures error.Some? ==> gone == {} && cleanup.None?
    ensures error.None? && DeletesAll(bucket.outage, bucket.verdict, old(bucket.requests), rows) ==> gone == ToSet(rows)
    ensures error.None? ==>
      (cleanup.Some? <==> fate.cleanupStored && !DeletesAll(bucket.outage, bucket.verdict, old(bucket.requests), rows))
    ensures OnlyCleanup(old(dispatcher.pool.outbox), dispatcher.pool.outbox, cleanup, rows)
  {
    cleanup, gone := None, {};
    error := DeleteInTransaction(db, template, record, fate);
    if error.Some? || rows == [] {
      return;
    }
    var ok;
    ok, gone := bucket.DeleteObjects(rows);
    if !ok {
      cleanup := Compensate(dispatcher, rows, fate.cleanupStored);
    }
  }

  // The exact condition under which a delete takes effect in the tables.
  predicate Deletes(records: map<Uuid, Uuid>, record: Uuid, template: Uuid, fate: DeleteFate) {
    fate.read && fate.deleted && IsRecordOf(records, record, template) && fate.commit != FailsUncommitted
  }

  // Reading the keys, deleting the row, committing.
  method DeleteInTransaction(db: ArchiveDb, template: Uuid, record: Uuid, fate: DeleteFate)
    returns (error: Option<AppError>)
    modifies db
    ensures error.None? <==>
      fate.read && fate.deleted && IsRecordOf(old(db.records), record, template) && fate.commit == Commits
    ensures error == Some(DataNotFound) <==>
      fate.read && fate.deleted && !IsRecordOf(old(db.records), record, template)
    ensures
      if Deletes(old(db.records), record, template, fate)
      then db.records == old(db.records) - {record} && db.files == WithoutRecord(old(db.files), record)
      else db.records == old(db.records) && db.files == old(db.files)
  {
    if !fate.read || !fate.deleted {
      return Some(UnexpectedError);
    }
    if record !in db.records || db.records[record] != template {
      return Some(DataNotFound);
    }
    if fate.commit != FailsUncommitted {
      db.records := db.records - {record};
      db.files := WithoutRecord(db.files, record);
    }
    error := if fate.commit == Commits then None else Some(UnexpectedError);
  }
}
