/**
 * Files of an archive record: the keys a create may copy to, and the copying itself with
 * every way it can fail.
 */
module ArchiveFiles {
  import opened Collections
  import opened Errors
  import opened Json
  import opened ObjectKeys
  import opened ObjectStorage
  import opened Wrappers
  import SchemaFields

  type Field = (string, SchemaFields.FileConfig)

  // A HashMap of file fields in the order one iteration happens to take.
  type Fields = seq<Field>

  function TryParseFileId(parse: UuidParser, value: Option<Json>): Option<Uuid> {
    if value.Some? && value.value.Str? then parse(value.value.s) else None
  }

  function ParsedIds(parse: UuidParser, items: seq<Json>): set<Uuid> {
    set v | v in items && TryParseFileId(parse, Some(v)).Some? :: TryParseFileId(parse, Some(v)).value
  }

  // Every file id that one field's value mentions.
  function IdsIn(parse: UuidParser, value: Option<Json>): set<Uuid> {
    match value
    case Some(Str(s)) => ParsedIds(parse, [Str(s)])
    case Some(Array(items)) => ParsedIds(parse, items)
    case _ => {}
  }

  function IdsInFields(parse: UuidParser, fields: Fields, data: Json): set<Uuid> {
    if fields == [] then {}
    else IdsInFields(parse, fields[..|fields| - 1], data) + IdsIn(parse, Get(data, fields[|fields| - 1].0))
  }

  function KeysFor(record: Uuid, ids: set<Uuid>): set<string> {
    set id | id in ids :: ArchiveDestKey(record, id)
  }

  lemma KeysForJoin(record: Uuid, a: set<Uuid>, b: set<Uuid>)
    ensures KeysFor(record, a + b) == KeysFor(record, a) + KeysFor(record, b)
    ensures a <= b ==> KeysFor(record, a) <= KeysFor(record, b)
  {
  }

  lemma {:induction false} IdsOfField(parse: UuidParser, fields: Fields, data: Json, field: Field)
    requires field in fields
    ensures IdsIn(parse, Get(data, field.0)) <= IdsInFields(parse, fields, data)
    decreases |fields|
  {
    if field != fields[|fields| - 1] {
      assert field in fields[..|fields| - 1];
      IdsOfField(parse, fields[..|fields| - 1], data, field);
    }
  }

  /** The ids do not depend on the order in which a map is iterated. */
  lemma {:induction false} OrderIsIrrelevant(parse: UuidParser, a: Fields, b: Fields, data: Json)
    requires forall f :: f in a ==> f in b
    ensures IdsInFields(parse, a, data) <= IdsInFields(parse, b, data)
    decreases |a|
  {
    if a != [] {
      OrderIsIrrelevant(parse, a[..|a| - 1], b, data);
      IdsOfField(parse, b, data, a[|a| - 1]);
    }
  }

  /**
   * The list computed before anything is copied: the destination keys of every file id
   * the data mentions in a file field, each once.
   */
  method CollectArchiveObjectKeys(parse: UuidParser, record: Uuid, fields: Fields, data: Json)
    returns (keys: seq<string>)
    ensures Distinct(keys)
    ensures ToSet(keys) == KeysFor(record, IdsInFields(parse, fields, data))
  {
    keys := [];
    var unique: set<Uuid> := {};
    for i := 0 to |fields|
      invariant unique == IdsInFields(parse, fields[..i], data)
      invariant Distinct(keys) && ToSet(keys) == KeysFor(record, unique)
    {
      assert fields[..i + 1][..i] == fields[..i];
      var value := Get(data, fields[i].0);
      var items := match value
        case Some(Str(s)) => [Str(s)]
        case Some(Array(items)) => items
        case _ => [];
      keys, unique := CollectItems(parse, record, items, keys, unique);
    }
    assert fields[..|fields|] == fields;
  }

  // The items of one field, skipping what does not parse and what was seen before.
  method CollectItems(parse: UuidParser, record: Uuid, items: seq<Json>, keys0: seq<string>, unique0: set<Uuid>)
    returns (keys: seq<string>, unique: set<Uuid>)
    requires Distinct(keys0) && ToSet(keys0) == KeysFor(record, unique0)
    ensures unique == unique0 + ParsedIds(parse, items)
    ensures Distinct(keys) && ToSet(keys) == KeysFor(record, unique)
  {
    keys, unique := keys0, unique0;
    for j := 0 to |items|
      invariant unique == unique0 + ParsedIds(parse, items[..j])
      invariant Distinct(keys) && ToSet(keys) == KeysFor(record, unique)
    {
      assert items[..j + 1] == items[..j] + [items[j]];
      var parsed := TryParseFileId(parse, Some(items[j]));
      if parsed.Some? && parsed.value !in unique {
        NewKeyIsNew(record, unique, parsed.value);
        keys := keys + [ArchiveDestKey(record, parsed.value)];
        unique := unique + {parsed.value};
      }
    }
    assert items[..|items|] == items;
  }

  lemma NewKeyIsNew(record: Uuid, ids: set<Uuid>, id: Uuid)
    requires id !in ids
    ensures ArchiveDestKey(record, id) !in KeysFor(record, ids)
    ensures KeysFor(record, ids + {id}) == KeysFor(record, ids) + {ArchiveDestKey(record, id)}
  {
    forall other | other in ids ensures ArchiveDestKey(record, other) != ArchiveDestKey(record, id) {
      ArchiveDestKeyIsInjective(record, other, record, id);
    }
  }

  /** All keys of the list belong to this record, so to no other. */
  lemma CollectedKeysBelongToRecord(record: Uuid, ids: set<Uuid>, key: string, other: Uuid)
    requires key in KeysFor(record, ids)
    ensures BelongsTo(key, other) <==> other == record
  {
    var id :| id in ids && key == ArchiveDestKey(record, id);
    ArchiveDestKeyBelongs(record, id);
    if BelongsTo(key, other) {
      BelongsToOneRecord(key, record, other);
    }
  }

  // ---------------------------------------------------------------- what the data asks for

  // The ids one field asks to store: one for quota 1, else the items of an array.
  function WantedList(parse: UuidParser, config: SchemaFields.FileConfig, value: Option<Json>): seq<Uuid>
    requires FitsField(parse, config, value)
  {
    if config.quota == 1 then
      (var id := TryParseFileId(parse, value); if id.Some? then [id.value] else [])
    else if value.Some? && value.value.Array? then
      var items := value.value.items;
      seq(|items|, i requires 0 <= i < |items| => TryParseFileId(parse, Some(items[i])).value)
    else []
  }

  predicate FitsField(parse: UuidParser, config: SchemaFields.FileConfig, value: Option<Json>) {
    if config.quota == 1 then TryParseFileId(parse, value).Some? || !config.required
    else if value.Some? && value.value.Array? then
      var items := value.value.items;
      && (forall i :: 0 <= i < |items| ==> TryParseFileId(parse, Some(items[i])).Some?)
      && (items == [] ==> !config.required)
      && (forall i, j :: 0 <= i < j < |items| ==>
            TryParseFileId(parse, Some(items[i])) != TryParseFileId(parse, Some(items[j])))
    else !config.required
  }

  predicate FieldAcceptable(parse: UuidParser, field: Field, data: Json) {
    FitsField(parse, field.1, Get(data, field.0))
  }

  predicate AllAcceptable(parse: UuidParser, fields: Fields, data: Json) {
    forall f :: f in fields ==> FieldAcceptable(parse, f, data)
  }

  function WantedIn(parse: UuidParser, field: Field, data: Json): seq<Uuid> {
    if FieldAcceptable(parse, field, data) then WantedList(parse, field.1, Get(data, field.0)) else []
  }

  // All ids to store, in the order of the fields.
  function Plan(parse: UuidParser, fields: Fields, data: Json): seq<Uuid> {
    if fields == [] then []
    else Plan(parse, fields[..|fields| - 1], data) + WantedIn(parse, fields[|fields| - 1], data)
  }

  function IdSet(ids: seq<Uuid>): set<Uuid> {
    set id | id in ids
  }

  lemma WantedIsMentioned(parse: UuidParser, field: Field, data: Json)
    ensures IdSet(WantedIn(parse, field, data)) <= IdsIn(parse, Get(data, field.0))
  {
    var config, value := field.1, Get(data, field.0);
    forall id | id in WantedIn(parse, field, data) ensures id in IdsIn(parse, value) {
      if config.quota == 1 {
        assert value.value in [value.value];
        assert value.value.Str?;
      } else {
        var i :| 0 <= i < |value.value.items| && TryParseFileId(parse, Some(value.value.items[i])).value == id;
        assert value.value.items[i] in value.value.items;
      }
    }
  }

  /** Nothing is stored that the list computed beforehand does not mention. */
  lemma {:induction false} PlanIsMentioned(parse: UuidParser, fields: Fields, data: Json)
    ensures IdSet(Plan(parse, fields, data)) <= IdsInFields(parse, fields, data)
    decreases |fields|
  {
    if fields != [] {
      PlanIsMentioned(parse, fields[..|fields| - 1], data);
      WantedIsMentioned(parse, fields[|fields| - 1], data);
    }
  }

  // ---------------------------------------------------------------- what a field's data say

  ghost predicate Names(parse: UuidParser, v: Json, id: Uuid) {
    v.Str? && parse(v.s) == Some(id)
  }

  // The data ask for this file in this field: its one text, or a text of its array.
  ghost predicate Asks(parse: UuidParser, field: Field, data: Json, id: Uuid) {
    && data.Object? && field.0 in data.fields
    && var v := data.fields[field.0];
       if field.1.quota == 1 then Names(parse, v, id)
       else v.Array? && exists i :: 0 <= i < |v.items| && Names(parse, v.items[i], id)
  }

  // An array in a field for several files holds file ids only, and none twice.
  ghost predicate WellFormed(parse: UuidParser, field: Field, data: Json) {
    data.Object? && field.0 in data.fields && data.fields[field.0].Array? && field.1.quota != 1 ==>
      DistinctIds(parse, data.fields[field.0].items)
  }

  ghost predicate IsId(parse: UuidParser, v: Json) {
    exists id :: Names(parse, v, id)
  }

  ghost predicate DistinctIds(parse: UuidParser, items: seq<Json>) {
    && (forall i :: 0 <= i < |items| ==> IsId(parse, items[i]))
    && (forall i, j, id :: 0 <= i < j < |items| && Names(parse, items[i], id) ==> !Names(parse, items[j], id))
  }

  lemma NamesIsParsed(parse: UuidParser, v: Json, id: Uuid)
    ensures Names(parse, v, id) <==> TryParseFileId(parse, Some(v)) == Some(id)
  {
  }

  /** A field passes exactly when its array is well formed and, where it is required, it asks for a file. */
  lemma AcceptableIff(parse: UuidParser, field: Field, data: Json)
    ensures FieldAcceptable(parse, field, data) <==>
      WellFormed(parse, field, data) && (field.1.required ==> exists id :: Asks(parse, field, data, id))
  {
    if data.Object? && field.0 in data.fields {
      var v := data.fields[field.0];
      forall w: Json, id ensures Names(parse, w, id) <==> TryParseFileId(parse, Some(w)) == Some(id) {
        NamesIsParsed(parse, w, id);
      }
      if field.1.quota == 1 {
        if TryParseFileId(parse, Some(v)).Some? {
          assert Asks(parse, field, data, TryParseFileId(parse, Some(v)).value);
        }
      } else if v.Array? {
        ArrayAcceptableIff(parse, field, data, v.items);
      }
    }
  }

  lemma ArrayAcceptableIff(parse: UuidParser, field: Field, data: Json, items: seq<Json>)
    requires data.Object? && field.0 in data.fields && data.fields[field.0] == Array(items) && field.1.quota != 1
    ensures FieldAcceptable(parse, field, data) <==>
      WellFormed(parse, field, data) && (field.1.required ==> exists id :: Asks(parse, field, data, id))
  {
    DistinctIdsIff(parse, items);
    if items != [] && FieldAcceptable(parse, field, data) {
      assert Asks(parse, field, data, TryParseFileId(parse, Some(items[0])).value);
    }
    if id :| Asks(parse, field, data, id) {
      var i :| 0 <= i < |items| && Names(parse, items[i], id);
    }
  }

  lemma DistinctIdsIff(parse: UuidParser, items: seq<Json>)
    ensures DistinctIds(parse, items) <==>
      && (forall i :: 0 <= i < |items| ==> TryParseFileId(parse, Some(items[i])).Some?)
      && (forall i, j :: 0 <= i < j < |items| ==>
            TryParseFileId(parse, Some(items[i])) != TryParseFileId(parse, Some(items[j])))
  {
    forall i | 0 <= i < |items|
      ensures TryParseFileId(parse, Some(items[i])).Some? <==> IsId(parse, items[i])
    {
      if TryParseFileId(parse, Some(items[i])).Some? {
        assert Names(parse, items[i], TryParseFileId(parse, Some(items[i])).value);
      }
    }
    if DistinctIds(parse, items) {
      forall i, j | 0 <= i < j < |items|
        ensures TryParseFileId(parse, Some(items[i])) != TryParseFileId(parse, Some(items[j]))
      {
        assert IsId(parse, items[i]);
        var id :| Names(parse, items[i], id);
        assert !Names(parse, items[j], id);
      }
    }
  }

  // The data mention this id in this field: as its text, or in its array, whatever the quota.
  ghost predicate Mentions(parse: UuidParser, field: Field, data: Json, id: Uuid) {
    && data.Object? && field.0 in data.fields
    && var v := data.fields[field.0];
       Names(parse, v, id) || (v.Array? && exists i :: 0 <= i < |v.items| && Names(parse, v.items[i], id))
  }

  lemma FieldMentions(parse: UuidParser, field: Field, data: Json, id: Uuid)
    ensures id in IdsIn(parse, Get(data, field.0)) <==> Mentions(parse, field, data, id)
  {
    if data.Object? && field.0 in data.fields {
      var v := data.fields[field.0];
      if v.Str? {
        NamesIsParsed(parse, v, id);
        assert v in [v];
      } else if v.Array? {
        forall w ensures Names(parse, w, id) <==> TryParseFileId(parse, Some(w)) == Some(id) {
          NamesIsParsed(parse, w, id);
        }
        if i :| 0 <= i < |v.items| && Names(parse, v.items[i], id) {
          assert v.items[i] in v.items;
        }
      }
    }
  }

  /** The keys listed for compensation stand for exactly the ids that some field's data mention. */
  lemma {:induction false} ListedIsMentioned(parse: UuidParser, fields: Fields, data: Json, id: Uuid)
    ensures id in IdsInFields(parse, fields, data) <==> exists f :: f in fields && Mentions(parse, f, data, id)
    decreases |fields|
  {
    if fields != [] {
      var init, last := fields[..|fields| - 1], fields[|fields| - 1];
      assert fields == init + [last] && last in fields;
      ListedIsMentioned(parse, init, data, id);
      FieldMentions(parse, last, data, id);
    }
  }

  lemma WantedIsAsked(parse: UuidParser, field: Field, data: Json, id: Uuid)
    requires FieldAcceptable(parse, field, data)
    ensures id in WantedIn(parse, field, data) <==> Asks(parse, field, data, id)
  {
    var value := Get(data, field.0);
    if field.1.quota != 1 && value.Some? && value.value.Array? {
      var items, ids := value.value.items, WantedIn(parse, field, data);
      forall i | 0 <= i < |items| ensures ids[i] == id <==> Names(parse, items[i], id) {
        NamesIsParsed(parse, items[i], id);
      }
      if i :| 0 <= i < |items| && Names(parse, items[i], id) {
        assert ids[i] == id;
      }
    }
  }

  /** The ids to store are exactly the ones the data ask for, field by field and item by item. */
  lemma {:induction false} PlanIsAsked(parse: UuidParser, fields: Fields, data: Json, id: Uuid)
    requires AllAcceptable(parse, fields, data)
    ensures id in Plan(parse, fields, data) <==> exists f :: f in fields && Asks(parse, f, data, id)
    decreases |fields|
  {
    if fields != [] {
      var init, last := fields[..|fields| - 1], fields[|fields| - 1];
      assert fields == init + [last] && last in fields;
      PlanIsAsked(parse, init, data, id);
      WantedIsAsked(parse, last, data, id);
    }
  }

  // The new rows are exactly the files asked for: each is this record's, with its object there.
  ghost predicate StoresAsked(parse: UuidParser, fields: Fields, data: Json, record: Uuid,
                              objects: map<string, int>, files0: map<Uuid, FileRow>, files: map<Uuid, FileRow>) {
    && (forall id :: id in files0 ==> id in files && files[id] == files0[id])
    && (forall id :: (id in files && id !in files0) <==> exists f :: f in fields && Asks(parse, f, data, id))
    && (forall id :: id in files && id !in files0 ==>
          files[id] == FileRow(record, ArchiveDestKey(record, id)) && ArchiveDestKey(record, id) in objects)
  }

  lemma StoredIsAsked(parse: UuidParser, fields: Fields, data: Json, record: Uuid,
                      objects: map<string, int>, files0: map<Uuid, FileRow>, files: map<Uuid, FileRow>, times: Period)
    requires AllAcceptable(parse, fields, data)
    requires Stored(objects, files0, files, record, IdSet(Plan(parse, fields, data)), times)
    ensures StoresAsked(parse, fields, data, record, objects, files0, files)
  {
    forall id ensures id in Plan(parse, fields, data) <==> exists f :: f in fields && Asks(parse, f, data, id) {
      PlanIsAsked(parse, fields, data, id);
    }
    forall id | id in IdSet(Plan(parse, fields, data)) ensures ArchiveDestKey(record, id) in objects {
      assert Placed(objects, ArchiveDestKey(record, id), times);
    }
  }

  lemma PlanNext(parse: UuidParser, fields: Fields, data: Json, i: nat)
    requires i < |fields|
    ensures Plan(parse, fields[..i + 1], data) == Plan(parse, fields[..i], data) + WantedIn(parse, fields[i], data)
  {
    assert fields[..i + 1][..i] == fields[..i];
  }

  lemma {:induction false} PlanPrefix(parse: UuidParser, fields: Fields, data: Json, i: nat)
    requires i <= |fields|
    ensures Plan(parse, fields[..i], data) <= Plan(parse, fields, data)
    decreases |fields| - i
  {
    if i == |fields| {
      assert fields[..i] == fields;
    } else {
      PlanPrefix(parse, fields, data, i + 1);
      PlanNext(parse, fields, data, i);
    }
  }

  lemma PlanFacts(parse: UuidParser, fields: Fields, data: Json, i: nat)
    requires i < |fields|
    ensures Plan(parse, fields[..i], data) <= Plan(parse, fields, data)
    ensures Plan(parse, fields[..i + 1], data) == Plan(parse, fields[..i], data) + WantedIn(parse, fields[i], data)
    ensures Plan(parse, fields[..i + 1], data) <= Plan(parse, fields, data)
  {
    PlanPrefix(parse, fields, data, i);
    PlanNext(parse, fields, data, i);
    PlanPrefix(parse, fields, data, i + 1);
  }

  lemma AcceptableFacts(parse: UuidParser, fields: Fields, data: Json, i: nat)
    requires i < |fields|
    ensures AllAcceptable(parse, fields[..i + 1], data) <==>
      AllAcceptable(parse, fields[..i], data) && FieldAcceptable(parse, fields[i], data)
    ensures AllAcceptable(parse, fields, data) ==> FieldAcceptable(parse, fields[i], data)
    ensures fields[i] in fields
  {
    assert fields[..i + 1] == fields[..i] + [fields[i]];
  }

  // ---------------------------------------------------------------- copying the files

  datatype FileRow = FileRow(record: Uuid, objectKey: string)

  // What goes wrong with one file: reading its metadata, the copy, or saving the row.
  datatype FileFault = NoFault | HeadFails | CopyBreaks(how: CopyFault) | SaveFails

  type Faults = nat -> FileFault

  predicate Harmless(fault: FileFault) {
    fault == NoFault || fault == CopyBreaks(NoCopyFault)
  }

  // The uploaded object is there and its id is not taken.
  predicate Storable(session: Uuid, file: Uuid, objects: map<string, int>, files: map<Uuid, FileRow>) {
    TempObjectKey(session, file) in objects && file !in files
  }

  // Storing these ids one after the other works: no repetition, each can be stored, and
  // none of the faults from number n on that they meet does harm.
  ghost predicate Works(session: Uuid, ids: seq<Uuid>, objects: map<string, int>, files: map<Uuid, FileRow>,
                        fault: Faults, n: nat) {
    && Distinct(ids)
    && (forall i :: 0 <= i < |ids| ==> Storable(session, ids[i], objects, files))
    && (forall k :: n <= k < n + |ids| ==> Harmless(fault(k)))
  }

  // From the first copy of a create to its last.
  datatype Period = Period(start: int, end: int) {
    predicate Has(t: int) {
      start <= t <= end
    }
  }

  // Nothing disappears, and whatever is new or rewritten is a copy of that period under one of `keys`.
  ghost predicate CopiesAt(before: map<string, int>, after: map<string, int>, keys: set<string>, times: Period) {
    && before.Keys <= after.Keys
    && forall k :: k in after ==> (k in before && after[k] == before[k]) || (k in keys && times.Has(after[k]))
  }

  lemma CopiesJoin(a: map<string, int>, b: map<string, int>, c: map<string, int>,
                   early: set<string>, late: set<string>, keys: set<string>, times: Period)
    requires CopiesAt(a, b, early, times) && CopiesAt(b, c, late, times) && early <= keys && late <= keys
    ensures CopiesAt(a, c, keys, times)
  {
  }

  // Exactly `ids` of `record` have been added to files0, each with its object copied in that period.
  ghost predicate Stored(objects: map<string, int>, files0: map<Uuid, FileRow>, files: map<Uuid, FileRow>,
                         record: Uuid, ids: set<Uuid>, times: Period) {
    && files.Keys == files0.Keys + ids && files0.Keys !! ids
    && (forall id :: id in files0 ==> files[id] == files0[id])
    && (forall id :: id in ids ==> files[id] == FileRow(record, ArchiveDestKey(record, id)))
    && (forall id :: id in ids ==> Placed(objects, ArchiveDestKey(record, id), times))
  }

  ghost predicate Placed(objects: map<string, int>, key: string, times: Period) {
    key in objects && times.Has(objects[key])
  }

  lemma StoredJoin(f0: map<Uuid, FileRow>, f1: map<Uuid, FileRow>, f2: map<Uuid, FileRow>, o1: map<string, int>,
                   o2: map<string, int>, record: Uuid, a: set<Uuid>, b: set<Uuid>, keys: set<string>, times: Period)
    requires Stored(o1, f0, f1, record, a, times) && Stored(o2, f1, f2, record, b, times)
      && CopiesAt(o1, o2, keys, times)
    ensures Stored(o2, f0, f2, record, a + b, times)
  {
    forall id | id in a ensures Placed(o2, ArchiveDestKey(record, id), times) {
      assert Placed(o1, ArchiveDestKey(record, id), times);
    }
  }

  // Copies to archive keys leave the uploads alone.
  lemma UploadsStay(before: map<string, int>, after: map<string, int>, record: Uuid, ids: set<Uuid>, times: Period,
                    session: Uuid, file: Uuid)
    requires CopiesAt(before, after, KeysFor(record, ids), times)
    ensures TempObjectKey(session, file) in after <==> TempObjectKey(session, file) in before
  {
    var temp := TempObjectKey(session, file);
    assert temp[1] == 'e';
    forall id | id in ids ensures ArchiveDestKey(record, id) != temp {
      assert ArchiveDestKey(record, id)[1] == 'r';
    }
  }

  lemma OneWorks(session: Uuid, id: Uuid, objects: map<string, int>, files: map<Uuid, FileRow>, fault: Faults, n: nat)
    ensures Works(session, [id], objects, files, fault, n) <==>
      Storable(session, id, objects, files) && Harmless(fault(n))
  {
    assert [id][0] == id;
  }

  lemma ConcatIsDistinct(a: seq<Uuid>, b: seq<Uuid>)
    ensures Distinct(a + b) <==> Distinct(a) && Distinct(b) && IdSet(a) !! IdSet(b)
  {
    var c := a + b;
    if Distinct(c) {
      forall i, j | 0 <= i < j < |a| ensures a[i] != a[j] { assert c[i] != c[j]; }
      forall i, j | 0 <= i < j < |b| ensures b[i] != b[j] { assert c[|a| + i] != c[|a| + j]; }
      forall i, j | 0 <= i < |a| && 0 <= j < |b| ensures a[i] != b[j] { assert c[i] != c[|a| + j]; }
    } else {
      var i, j :| 0 <= i < j < |c| && c[i] == c[j];
      if j < |a| {
        assert a[i] == a[j];
      } else if i >= |a| {
        assert b[i - |a|] == b[j - |a|];
      } else {
        assert a[i] == b[j - |a|] && a[i] in IdSet(a) && b[j - |a|] in IdSet(b);
      }
    }
  }

  lemma ConcatIsStorable(session: Uuid, a: seq<Uuid>, b: seq<Uuid>, objects: map<string, int>,
                         files: map<Uuid, FileRow>)
    ensures (forall i :: 0 <= i < |a + b| ==> Storable(session, (a + b)[i], objects, files)) <==>
      && (forall i :: 0 <= i < |a| ==> Storable(session, a[i], objects, files))
      && (forall i :: 0 <= i < |b| ==> Storable(session, b[i], objects, files))
  {
    assert forall i :: 0 <= i < |a| ==> (a + b)[i] == a[i];
    assert forall i :: 0 <= i < |b| ==> (a + b)[|a| + i] == b[i];
  }

  // Once the first part of a plan has worked, the whole works exactly if the rest works then.
  lemma WorksConcat(session: Uuid, record: Uuid, a: seq<Uuid>, b: seq<Uuid>,
                    objects0: map<string, int>, objects: map<string, int>,
                    files0: map<Uuid, FileRow>, files: map<Uuid, FileRow>, fault: Faults, n: nat, times: Period)
    requires Works(session, a, objects0, files0, fault, n)
    requires FilesDone(record, a, objects0, objects, files0, files, times)
    ensures Works(session, a + b, objects0, files0, fault, n) <==> Works(session, b, objects, files, fault, n + |a|)
  {
    ConcatIsDistinct(a, b);
    ConcatIsStorable(session, a, b, objects0, files0);
    forall i | 0 <= i < |b|
      ensures Storable(session, b[i], objects, files) <==>
        Storable(session, b[i], objects0, files0) && b[i] !in IdSet(a)
    {
      UploadsStay(objects0, objects, record, IdSet(a), times, session, b[i]);
    }
    assert IdSet(a) !! IdSet(b) <==> forall i :: 0 <= i < |b| ==> b[i] !in IdSet(a);
    assert n + |a + b| == n + |a| + |b|;
  }

  lemma WorksPrefix(session: Uuid, ids: seq<Uuid>, whole: seq<Uuid>, objects: map<string, int>,
                    files: map<Uuid, FileRow>, fault: Faults, n: nat)
    requires ids <= whole && Works(session, whole, objects, files, fault, n)
    ensures Works(session, ids, objects, files, fault, n)
  {
    assert whole == ids + whole[|ids|..];
    ConcatIsDistinct(ids, whole[|ids|..]);
    ConcatIsStorable(session, ids, whole[|ids|..], objects, files);
  }

  // What storing these ids has done.
  ghost predicate FilesDone(record: Uuid, ids: seq<Uuid>, objects0: map<string, int>, objects: map<string, int>,
                            files0: map<Uuid, FileRow>, files: map<Uuid, FileRow>, times: Period) {
    && CopiesAt(objects0, objects, KeysFor(record, IdSet(ids)), times)
    && Stored(objects, files0, files, record, IdSet(ids), times)
  }

  lemma FilesConcat(record: Uuid, a: seq<Uuid>, b: seq<Uuid>,
                    objects0: map<string, int>, objects1: map<string, int>, objects2: map<string, int>,
                    files0: map<Uuid, FileRow>, files1: map<Uuid, FileRow>, files2: map<Uuid, FileRow>, times: Period)
    requires FilesDone(record, a, objects0, objects1, files0, files1, times)
    requires CopiesAt(objects1, objects2, KeysFor(record, IdSet(b)), times)
    ensures CopiesAt(objects0, objects2, KeysFor(record, IdSet(a + b)), times)
    ensures Stored(objects2, files1, files2, record, IdSet(b), times) ==>
      FilesDone(record, a + b, objects0, objects2, files0, files2, times)
  {
    var keys := KeysFor(record, IdSet(b));
    assert IdSet(a + b) == IdSet(a) + IdSet(b);
    KeysForJoin(record, IdSet(a), IdSet(b));
    CopiesJoin(objects0, objects1, objects2, KeysFor(record, IdSet(a)), keys, KeysFor(record, IdSet(a + b)), times);
    if Stored(objects2, files1, files2, record, IdSet(b), times) {
      StoredJoin(files0, files1, files2, objects1, objects2, record, IdSet(a), IdSet(b), keys, times);
    }
  }

  lemma CopiesWithin(a: map<string, int>, b: map<string, int>, record: Uuid, ids: seq<Uuid>, more: seq<Uuid>,
                     times: Period)
    requires CopiesAt(a, b, KeysFor(record, IdSet(ids)), times) && ids <= more
    ensures CopiesAt(a, b, KeysFor(record, IdSet(more)), times)
  {
    assert IdSet(ids) <= IdSet(more);
    KeysForJoin(record, IdSet(ids), IdSet(more));
  }

  class ArchiveDb {
    var records: map<Uuid, Uuid>        // record -> template
    var files: map<Uuid, FileRow>

    constructor ()
      ensures records == map[] && files == map[]
    {
      records, files := map[], map[];
    }
  }

  // An open transaction: its own view of the tables, the faults its files will meet, and
  // the time at which each of them is copied.
  class Transaction {
    const fault: Faults
    const clock: nat -> int
    var records: map<Uuid, Uuid>
    var files: map<Uuid, FileRow>
    var processed: nat

    constructor (db: ArchiveDb, fault: Faults, clock: nat -> int)
      ensures this.fault == fault && this.clock == clock
      ensures records == db.records && files == db.files && processed == 0
    {
      this.fault, this.clock, records, files, processed := fault, clock, db.records, db.files, 0;
    }

    // All of its copies fall into that period.
    ghost predicate Copying(times: Period) {
      forall n :: times.Has(clock(n))
    }

    /**
     * process_single_file: read the temporary object's metadata, copy, save the row.
     * A file id already in the table violates the primary key, after the copy.
     */
    method ProcessSingleFile(bucket: Bucket, session: Uuid, record: Uuid, file: Uuid, ghost times: Period)
      returns (error: Option<AppError>)
      requires Copying(times)
      modifies this`files, this`processed, bucket`objects
      ensures processed == old(processed) + 1
      ensures CopiesAt(old(bucket.objects), bucket.objects, KeysFor(record, {file}), times)
      ensures error.None? <==>
        Storable(session, file, old(bucket.objects), old(files)) && Harmless(fault(old(processed)))
      ensures error == Some(DataNotFound) <==> TempObjectKey(session, file) !in old(bucket.objects)
      ensures error.Some? ==> files == old(files) && error.value in {DataNotFound, UnexpectedError}
      ensures error.None? ==> Stored(bucket.objects, old(files), files, record, {file}, times)
    {
      var fate, time := fault(processed), clock(processed);
      processed := processed + 1;
      if TempObjectKey(session, file) !in bucket.objects {
        return Some(DataNotFound);
      }
      if fate == HeadFails {
        return Some(UnexpectedError);
      }
      var dest := ArchiveDestKey(record, file);
      assert KeysFor(record, {file}) == {dest};
      var ok := bucket.CopyObject(dest, time, if fate.CopyBreaks? then fate.how else NoCopyFault);
      if !ok {
        return Some(UnexpectedError);
      }
      if fate == SaveFails || file in files {
        return Some(UnexpectedError);
      }
      files := files[file := FileRow(record, dest)];
      error := None;
    }

    /**
     * create_files_record, over the fields in any order and with any faults. It succeeds
     * if and only if every field is acceptable and storing all wanted ids works, and then
     * it has stored exactly those; whatever happens, copies go only to keys of wanted ids.
     */
    method CreateFilesRecord(parse: UuidParser, bucket: Bucket, session: Uuid, record: Uuid, fields: Fields, data: Json,
                             ghost times: Period)
      returns (error: Option<AppError>)
      requires Copying(times)
      modifies this`files, this`processed, bucket`objects
      ensures CopiesAt(old(bucket.objects), bucket.objects, KeysFor(record, IdSet(Plan(parse, fields, data))), times)
      ensures error.None? <==>
        && AllAcceptable(parse, fields, data)
        && Works(session, Plan(parse, fields, data), old(bucket.objects), old(files), fault, old(processed))
      ensures error.None? ==> Stored(bucket.objects, old(files), files, record, IdSet(Plan(parse, fields, data)), times)
      ensures error.None? ==> StoresAsked(parse, fields, data, record, bucket.objects, old(files), files)
      ensures error.Some? && error.value.ValidationMessage? ==>
        exists f :: f in fields && f.0 == error.value.about && !FieldAcceptable(parse, f, data)
    {
      ghost var objects0, files0, n0 := bucket.objects, files, processed;
      for i := 0 to |fields|
        invariant AllAcceptable(parse, fields[..i], data)
        invariant Sofar(session, record, Plan(parse, fields[..i], data), objects0, bucket.objects, files0, files, fault,
                        n0, processed, times)
      {
        PlanFacts(parse, fields, data, i);
        AcceptableFacts(parse, fields, data, i);
        if !FieldAcceptable(parse, fields[i], data) {
          CopiesWithin(objects0, bucket.objects, record, Plan(parse, fields[..i], data), Plan(parse, fields, data),
                       times);
          return Some(ValidationMessage(fields[i].0));
        }
        error := ProcessField(parse, bucket, session, record, fields, data, i, times, objects0, files0, n0);
        if error.Some? {
          return;
        }
      }
      assert fields[..|fields|] == fields;
      StoredIsAsked(parse, fields, data, record, bucket.objects, files0, files, times);
      error := None;
    }

    // One acceptable field: its ids are the next stretch of the plan.
    method ProcessField(parse: UuidParser, bucket: Bucket, session: Uuid, record: Uuid, fields: Fields, data: Json,
                        i: nat, ghost times: Period, ghost objects0: map<string, int>, ghost files0: map<Uuid, FileRow>,
                        ghost n0: nat)
      returns (error: Option<AppError>)
      requires i < |fields| && FieldAcceptable(parse, fields[i], data)
      requires Sofar(session, record, Plan(parse, fields[..i], data), objects0, bucket.objects, files0, files, fault,
                     n0, processed, times)
      requires Copying(times)
      modifies this`files, this`processed, bucket`objects
      ensures error.None? ==>
        Sofar(session, record, Plan(parse, fields[..i + 1], data), objects0, bucket.objects, files0, files, fault, n0,
              processed, times)
      ensures error.Some? ==>
        && CopiesAt(objects0, bucket.objects, KeysFor(record, IdSet(Plan(parse, fields, data))), times)
        && !Works(session, Plan(parse, fields, data), objects0, files0, fault, n0)
        && error.value in {DataNotFound, UnexpectedError}
    {
      PlanFacts(parse, fields, data, i);
      var ids := WantedIn(parse, fields[i], data);
      ghost var objects1, files1, n1 := bucket.objects, files, processed;
      error := ProcessFiles(bucket, session, record, ids, times);
      SofarNext(session, record, Plan(parse, fields[..i], data), ids, Plan(parse, fields, data),
                objects0, objects1, bucket.objects, files0, files1, files, fault, n0, n1, times, error.None?);
    }

    // The loop over one field's ids.
    method ProcessFiles(bucket: Bucket, session: Uuid, record: Uuid, ids: seq<Uuid>, ghost times: Period)
      returns (error: Option<AppError>)
      requires Copying(times)
      modifies this`files, this`processed, bucket`objects
      ensures error.None? <==> Works(session, ids, old(bucket.objects), old(files), fault, old(processed))
      ensures CopiesAt(old(bucket.objects), bucket.objects, KeysFor(record, IdSet(ids)), times)
      ensures error.None? ==>
        FilesDone(record, ids, old(bucket.objects), bucket.objects, old(files), files, times)
          && processed == old(processed) + |ids|
      ensures error.Some? ==> error.value in {DataNotFound, UnexpectedError}
    {
      ghost var objects0, files0, n0 := bucket.objects, files, processed;
      for j := 0 to |ids|
        invariant Sofar(session, record, ids[..j], objects0, bucket.objects, files0, files, fault, n0, processed, times)
      {
        assert ids[..j + 1] == ids[..j] + [ids[j]];
        ghost var objects1, files1, n1 := bucket.objects, files, processed;
        error := ProcessSingleFile(bucket, session, record, ids[j], times);
        OneWorks(session, ids[j], objects1, files1, fault, n1);
        assert IdSet([ids[j]]) == {ids[j]};
        SofarNext(session, record, ids[..j], [ids[j]], ids, objects0, objects1, bucket.objects, files0, files1, files,
                  fault, n0, n1, times, error.None?);
        if error.Some? {
          return;
        }
      }
      assert ids[..|ids|] == ids;
      error := None;
    }
  }

  // How far storing a plan has come: these ids are done, and that was no accident.
  ghost predicate Sofar(session: Uuid, record: Uuid, done: seq<Uuid>, objects0: map<string, int>,
                        objects: map<string, int>,
                        files0: map<Uuid, FileRow>, files: map<Uuid, FileRow>, fault: Faults, n0: nat, n: nat,
                        times: Period) {
    && Works(session, done, objects0, files0, fault, n0) && n == n0 + |done|
    && FilesDone(record, done, objects0, objects, files0, files, times)
  }

  // The next stretch of the plan `whole` has been tried, and worked or not.
  lemma SofarNext(session: Uuid, record: Uuid, done: seq<Uuid>, ids: seq<Uuid>, whole: seq<Uuid>,
                  objects0: map<string, int>, objects1: map<string, int>, objects2: map<string, int>,
                  files0: map<Uuid, FileRow>, files1: map<Uuid, FileRow>, files2: map<Uuid, FileRow>,
                  fault: Faults, n0: nat, n1: nat, times: Period, worked: bool)
    requires Sofar(session, record, done, objects0, objects1, files0, files1, fault, n0, n1, times)
    requires done + ids <= whole
    requires CopiesAt(objects1, objects2, KeysFor(record, IdSet(ids)), times)
    requires worked <==> Works(session, ids, objects1, files1, fault, n1)
    requires worked ==> Stored(objects2, files1, files2, record, IdSet(ids), times)
    ensures worked ==> Sofar(session, record, done + ids, objects0, objects2, files0, files2, fault, n0, n1 + |ids|,
                             times)
    ensures !worked ==>
      && !Works(session, whole, objects0, files0, fault, n0)
      && CopiesAt(objects0, objects2, KeysFor(record, IdSet(whole)), times)
  {
    WorksConcat(session, record, done, ids, objects0, objects1, files0, files1, fault, n0, times);
    FilesConcat(record, done, ids, objects0, objects1, objects2, files0, files1, files2, times);
    if !worked {
      CopiesWithin(objects0, objects2, record, done + ids, whole, times);
      if Works(session, whole, objects0, files0, fault, n0) {
        WorksPrefix(session, done + ids, whole, objects0, files0, fault, n0);
      }
    }
  }
}
