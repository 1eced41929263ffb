/**
 * Putting view URLs in place of file ids in the records of an answer: collect all ids,
 * look them up in one query, replace them everywhere.
 */
module Enrichment {
  import opened Collections
  import opened Json
  import opened ObjectKeys
  import opened Wrappers

  type Urls = map<Uuid, string>

  datatype FileUrlInfo = FileUrlInfo(fileName: string, objectKey: string)

  datatype ArchiveRecord = ArchiveRecord(recordId: Uuid, template: Uuid, data: Json)

  // ---------------------------------------------------------------- values

  function Collect(parse: UuidParser, v: Json): set<Uuid>
    decreases v
  {
    match v
    case Str(s) => if parse(s).Some? then {parse(s).value} else {}
    case Array(items) => CollectAll(parse, items)
    case _ => {}
  }

  function CollectAll(parse: UuidParser, items: seq<Json>): set<Uuid>
    decreases items
  {
    if items == [] then {} else Collect(parse, items[0]) + CollectAll(parse, items[1..])
  }

  function ReplaceText(parse: UuidParser, s: string, urls: Urls): string {
    if parse(s).Some? && parse(s).value in urls then urls[parse(s).value] else s
  }

  function Replace(parse: UuidParser, v: Json, urls: Urls): Json
    decreases v
  {
    match v
    case Str(s) => Str(ReplaceText(parse, s, urls))
    case Array(items) => Array(ReplaceAll(parse, items, urls))
    case _ => v
  }

  function ReplaceAll(parse: UuidParser, items: seq<Json>, urls: Urls): (replaced: seq<Json>)
    ensures |replaced| == |items|
    decreases items
  {
    if items == [] then [] else [Replace(parse, items[0], urls)] + ReplaceAll(parse, items[1..], urls)
  }

  lemma {:induction false} CollectAllSnoc(parse: UuidParser, items: seq<Json>, last: Json)
    ensures CollectAll(parse, items + [last]) == CollectAll(parse, items) + Collect(parse, last)
    decreases |items|
  {
    if items == [] {
      assert [] + [last] == [last] && [last][1..] == [];
    } else {
      CollectAllSnoc(parse, items[1..], last);
      assert (items + [last])[1..] == items[1..] + [last];
    }
  }

  lemma {:induction false} ReplaceAllSnoc(parse: UuidParser, items: seq<Json>, last: Json, urls: Urls)
    ensures ReplaceAll(parse, items + [last], urls) == ReplaceAll(parse, items, urls) + [Replace(parse, last, urls)]
    decreases |items|
  {
    if items == [] {
      assert [] + [last] == [last] && [last][1..] == [];
    } else {
      ReplaceAllSnoc(parse, items[1..], last, urls);
      assert (items + [last])[1..] == items[1..] + [last];
    }
  }

  // ---------------------------------------------------------------- values at any depth

  // The value that a path of array indices leads to.
  function At(v: Json, path: seq<nat>): Option<Json>
    decreases |path|
  {
    if path == [] then Some(v)
    else if v.Array? && path[0] < |v.items| then At(v.items[path[0]], path[1..])
    else None
  }

  lemma {:induction false} ReplaceAllIs(parse: UuidParser, items: seq<Json>, urls: Urls, i: nat)
    requires i < |items|
    ensures ReplaceAll(parse, items, urls)[i] == Replace(parse, items[i], urls)
    decreases |items|
  {
    if i > 0 {
      ReplaceAllIs(parse, items[1..], urls, i - 1);
    }
  }

  /**
   * What stands where after a replacement, at any depth of arrays: a text that reads as an
   * id with a URL has become that URL, any other text and any other value is as it was,
   * and there is nothing where there was nothing.
   */
  lemma {:induction false} ReplacedAt(parse: UuidParser, v: Json, urls: Urls, path: seq<nat>)
    ensures
      var before, after := At(v, path), At(Replace(parse, v, urls), path);
      && (after.None? <==> before.None?)
      && (before.Some? && before.value.Str? ==>
            (if exists id :: parse(before.value.s) == Some(id) && id in urls
             then exists id :: parse(before.value.s) == Some(id) && id in urls && after == Some(Str(urls[id]))
             else after == before))
      && (before.Some? && !before.value.Str? && !before.value.Array? ==> after == before)
      && (before.Some? && before.value.Array? ==> after.value.Array? && |after.value.items| == |before.value.items|)
    decreases |path|
  {
    if path != [] && v.Array? && path[0] < |v.items| {
      ReplaceAllIs(parse, v.items, urls, path[0]);
      ReplacedAt(parse, v.items[path[0]], urls, path[1..]);
    }
  }

  lemma {:induction false} CollectedAll(parse: UuidParser, items: seq<Json>, i: nat)
    requires i < |items|
    ensures Collect(parse, items[i]) <= CollectAll(parse, items)
    decreases |items|
  {
    if i > 0 {
      CollectedAll(parse, items[1..], i - 1);
    }
  }

  /** Every text at any depth that reads as an id is collected. */
  lemma {:induction false} CollectedAt(parse: UuidParser, v: Json, path: seq<nat>)
    requires At(v, path).Some? && At(v, path).value.Str? && parse(At(v, path).value.s).Some?
    ensures parse(At(v, path).value.s).value in Collect(parse, v)
    decreases |path|
  {
    if path != [] {
      CollectedAt(parse, v.items[path[0]], path[1..]);
      CollectedAll(parse, v.items, path[0]);
    }
  }

  /** And nothing else is. */
  lemma CollectedIsSomewhere(parse: UuidParser, v: Json, id: Uuid) returns (path: seq<nat>)
    requires id in Collect(parse, v)
    ensures At(v, path).Some? && At(v, path).value.Str? && parse(At(v, path).value.s) == Some(id)
    decreases v, 0
  {
    path := [];
    if v.Array? {
      var i, rest := CollectedInItems(parse, v.items, id);
      path := [i] + rest;
      assert path[1..] == rest;
    }
  }

  lemma CollectedInItems(parse: UuidParser, items: seq<Json>, id: Uuid) returns (i: nat, rest: seq<nat>)
    requires id in CollectAll(parse, items)
    ensures i < |items| && At(items[i], rest).Some? && At(items[i], rest).value.Str?
    ensures parse(At(items[i], rest).value.s) == Some(id)
    decreases items, 1
  {
    if id in Collect(parse, items[0]) {
      i := 0;
      rest := CollectedIsSomewhere(parse, items[0], id);
    } else {
      i, rest := CollectedInItems(parse, items[1..], id);
      i := i + 1;
    }
  }

  method CollectUuidsFromJsonValue(parse: UuidParser, v: Json, collector: set<Uuid>) returns (collected: set<Uuid>)
    ensures collected == collector + Collect(parse, v)
    decreases v
  {
    collected := collector;
    match v {
      case Str(s) =>
        if parse(s).Some? {
          collected := collected + {parse(s).value};
        }
      case Array(items) =>
        for i := 0 to |items|
          invariant collected == collector + CollectAll(parse, items[..i])
        {
          assert items[..i + 1] == items[..i] + [items[i]];
          CollectAllSnoc(parse, items[..i], items[i]);
          collected := CollectUuidsFromJsonValue(parse, items[i], collected);
        }
        assert items[..|items|] == items;
      case _ =>
    }
  }

  method ReplaceUuidWithUrlInJson(parse: UuidParser, v: Json, urls: Urls) returns (w: Json)
    ensures w == Replace(parse, v, urls)
    decreases v
  {
    w := v;
    match v {
      case Str(s) =>
        if parse(s).Some? && parse(s).value in urls {
          w := Str(urls[parse(s).value]);
        }
      case Array(items) =>
        var replaced: seq<Json> := [];
        for i := 0 to |items|
          invariant replaced == ReplaceAll(parse, items[..i], urls)
        {
          assert items[..i + 1] == items[..i] + [items[i]];
          ReplaceAllSnoc(parse, items[..i], items[i], urls);
          var item := ReplaceUuidWithUrlInJson(parse, items[i], urls);
          replaced := replaced + [item];
        }
        assert items[..|items|] == items;
        w := Array(replaced);
      case _ =>
    }
  }

  // ---------------------------------------------------------------- records

  function CollectFields(parse: UuidParser, data: Json, names: seq<string>): set<Uuid> {
    if names == [] then {}
    else
      CollectFields(parse, data, names[..|names| - 1])
      + match Get(data, names[|names| - 1]) case None => {} case Some(v) => Collect(parse, v)
  }

  // One file field after the other.
  function ReplaceFields(parse: UuidParser, data: Json, names: seq<string>, urls: Urls): Json {
    if names == [] then data
    else ReplaceField(parse, ReplaceFields(parse, data, names[..|names| - 1], urls), names[|names| - 1], urls)
  }

  function ReplaceField(parse: UuidParser, data: Json, name: string, urls: Urls): Json {
    match Get(data, name)
    case None => data
    case Some(v) => Object(data.fields[name := Replace(parse, v, urls)])
  }

  // What is meant: each file field replaced, everything else as it is.
  function Enriched(parse: UuidParser, data: Json, names: set<string>, urls: Urls): Json {
    if data.Object? then
      Object(map k | k in data.fields :: if k in names then Replace(parse, data.fields[k], urls) else data.fields[k])
    else data
  }

  function NameSet(names: seq<string>): set<string> {
    set n | n in names
  }

  /** The order in which the file fields are visited does not matter. */
  lemma {:induction false} FieldByFieldIsEnriched(parse: UuidParser, data: Json, names: seq<string>, urls: Urls)
    requires Distinct(names)
    ensures ReplaceFields(parse, data, names, urls) == Enriched(parse, data, NameSet(names), urls)
    decreases |names|
  {
    if names == [] {
      if data.Object? {
        assert Enriched(parse, data, NameSet(names), urls).fields == data.fields;
      }
    } else {
      var init, last := names[..|names| - 1], names[|names| - 1];
      FieldByFieldIsEnriched(parse, data, init, urls);
      assert names == init + [last];
      assert NameSet(names) == NameSet(init) + {last};
      if data.Object? {
        assert ReplaceFields(parse, data, names, urls).fields == Enriched(parse, data, NameSet(names), urls).fields;
      }
    }
  }

  // The URLs of these rows, where one could be generated.
  function UrlsOf(rows: map<Uuid, FileUrlInfo>, view: FileUrlInfo -> Option<string>): Urls {
    map id | id in rows && view(rows[id]).Some? :: view(rows[id]).value
  }

  /**
   * What the client gets, at any depth of arrays of a file field: a text that reads as the
   * id of a file with a URL has become that URL, any other text is as it was.
   */
  lemma FileFieldsGetUrls(parse: UuidParser, data: Json, names: set<string>, files: map<Uuid, FileUrlInfo>,
                          view: FileUrlInfo -> Option<string>, name: string, path: seq<nat>)
    requires data.Object? && name in data.fields && name in names
    requires At(data.fields[name], path).Some? && At(data.fields[name], path).value.Str?
    ensures
      var text := At(data.fields[name], path).value.s;
      var after := Enriched(parse, data, names, UrlsOf(files, view));
      && after.Object? && name in after.fields
      && At(after.fields[name], path) ==
         Some(Str(if parse(text).Some? && parse(text).value in files && view(files[parse(text).value]).Some?
                  then view(files[parse(text).value]).value else text))
  {
    ReplacedAt(parse, data.fields[name], UrlsOf(files, view), path);
  }

  // WHERE file_id = ANY($1).
  function Rows(files: map<Uuid, FileUrlInfo>, ids: set<Uuid>): map<Uuid, FileUrlInfo> {
    map id | id in files && id in ids :: files[id]
  }

  lemma RestrictedReplace(parse: UuidParser, v: Json, small: Urls, big: Urls)
    requires forall id :: id in Collect(parse, v) ==>
      (id in small <==> id in big) && (id in small ==> small[id] == big[id])
    ensures Replace(parse, v, small) == Replace(parse, v, big)
    decreases v
  {
    if v.Array? {
      RestrictedReplaceAll(parse, v.items, small, big);
    }
  }

  lemma RestrictedReplaceAll(parse: UuidParser, items: seq<Json>, small: Urls, big: Urls)
    requires forall id :: id in CollectAll(parse, items) ==>
      (id in small <==> id in big) && (id in small ==> small[id] == big[id])
    ensures ReplaceAll(parse, items, small) == ReplaceAll(parse, items, big)
    decreases items
  {
    if items != [] {
      RestrictedReplace(parse, items[0], small, big);
      RestrictedReplaceAll(parse, items[1..], small, big);
    }
  }

  /**
   * Batched enrichment equals direct lookup: the URLs of the collected ids alone give the
   * same document as the URLs of the whole file table.
   */
  lemma {:induction false} BatchedEqualsDirect(parse: UuidParser, data: Json, names: seq<string>,
                                               files: map<Uuid, FileUrlInfo>,
      view: FileUrlInfo -> Option<string>, ids: set<Uuid>)
    requires Distinct(names) && CollectFields(parse, data, names) <= ids
    ensures Enriched(parse, data, NameSet(names), UrlsOf(Rows(files, ids), view)) ==
      Enriched(parse, data, NameSet(names), UrlsOf(files, view))
  {
    if data.Object? {
      var small, big := UrlsOf(Rows(files, ids), view), UrlsOf(files, view);
      forall k | k in data.fields && k in NameSet(names)
        ensures Replace(parse, data.fields[k], small) == Replace(parse, data.fields[k], big)
      {
        CollectsEveryField(parse, data, names, k);
        RestrictedReplace(parse, data.fields[k], small, big);
      }
      assert Enriched(parse, data, NameSet(names), small).fields == Enriched(parse, data, NameSet(names), big).fields;
    }
  }

  lemma {:induction false} CollectsEveryField(parse: UuidParser, data: Json, names: seq<string>, name: string)
    requires data.Object? && name in names && name in data.fields
    ensures Collect(parse, data.fields[name]) <= CollectFields(parse, data, names)
    decreases |names|
  {
    if name != names[|names| - 1] {
      assert name in names[..|names| - 1];
      CollectsEveryField(parse, data, names[..|names| - 1], name);
    }
  }

  function CollectRecords(parse: UuidParser, records: seq<ArchiveRecord>, names: seq<string>): set<Uuid> {
    if records == [] then {}
    else
      CollectRecords(parse, records[..|records| - 1], names)
      + CollectFields(parse, records[|records| - 1].data, names)
  }

  lemma {:induction false} CollectsEveryRecord(parse: UuidParser, records: seq<ArchiveRecord>, names: seq<string>,
                                               i: nat)
    requires i < |records|
    ensures CollectFields(parse, records[i].data, names) <= CollectRecords(parse, records, names)
    decreases |records|
  {
    if i < |records| - 1 {
      CollectsEveryRecord(parse, records[..|records| - 1], names, i);
    }
  }

  method CollectIds(parse: UuidParser, records: array<ArchiveRecord>, names: seq<string>) returns (ids: set<Uuid>)
    ensures ids == CollectRecords(parse, records[..], names)
  {
    ids := {};
    for i := 0 to records.Length
      invariant ids == CollectRecords(parse, records[..i], names)
    {
      ghost var before := ids;
      for j := 0 to |names|
        invariant ids == before + CollectFields(parse, records[i].data, names[..j])
      {
        assert names[..j + 1][..j] == names[..j];
        var v := Get(records[i].data, names[j]);
        if v.Some? {
          ids := CollectUuidsFromJsonValue(parse, v.value, ids);
        }
      }
      assert names[..|names|] == names;
      assert records[..i + 1][..i] == records[..i];
    }
    assert records[..records.Length] == records[..];
  }

  method ReplaceInRecord(parse: UuidParser, data: Json, names: seq<string>, urls: Urls) returns (w: Json)
    ensures w == ReplaceFields(parse, data, names, urls)
  {
    w := data;
    for j := 0 to |names|
      invariant w == ReplaceFields(parse, data, names[..j], urls)
    {
      assert names[..j + 1][..j] == names[..j];
      var v := Get(w, names[j]);
      if v.Some? {
        var replaced := ReplaceUuidWithUrlInJson(parse, v.value, urls);
        w := Object(w.fields[names[j] := replaced]);
      }
    }
    assert names[..|names|] == names;
  }

  /**
   * enrich_archive_records_with_urls: every record ends up as direct lookup in the whole
   * file table would leave it; nothing but its data changes.
   */
  method EnrichArchiveRecords(parse: UuidParser, records: array<ArchiveRecord>, names: seq<string>,
                              files: map<Uuid, FileUrlInfo>,
      view: FileUrlInfo -> Option<string>)
    requires Distinct(names)
    modifies records
    ensures forall i :: 0 <= i < records.Length ==>
      records[i] == old(records[i]).(data := Enriched(parse, old(records[i].data), NameSet(names), UrlsOf(files, view)))
  {
    if records.Length == 0 {
      return;
    }
    ghost var was := records[..];
    var ids := CollectIds(parse, records, names);
    forall i | 0 <= i < records.Length ensures DirectIs(parse, was[i].data, names, files, view, ids) {
      CollectsEveryRecord(parse, was, names, i);
      BatchedEqualsDirect(parse, was[i].data, names, files, view, ids);
      FieldByFieldIsEnriched(parse, was[i].data, names, UrlsOf(Rows(files, ids), view));
    }
    if ids == {} {
      forall i | 0 <= i < records.Length
        ensures Enriched(parse, was[i].data, NameSet(names), UrlsOf(files, view)) == was[i].data
      {
        assert DirectIs(parse, was[i].data, names, files, view, ids);
        assert UrlsOf(Rows(files, ids), view) == map[];
        NoUrlsNoChange(parse, was[i].data, NameSet(names));
      }
      return;
    }
    var urls := UrlsOf(Rows(files, ids), view);
    for i := 0 to records.Length
      invariant forall k :: 0 <= k < i ==>
        records[k] == was[k].(data := Enriched(parse, was[k].data, NameSet(names), UrlsOf(files, view)))
      invariant forall k :: i <= k < records.Length ==> records[k] == was[k]
    {
      assert DirectIs(parse, was[i].data, names, files, view, ids);
      var data := ReplaceInRecord(parse, records[i].data, names, urls);
      records[i] := records[i].(data := data);
    }
  }

  ghost predicate DirectIs(parse: UuidParser, data: Json, names: seq<string>, files: map<Uuid, FileUrlInfo>,
                           view: FileUrlInfo -> Option<string>, ids: set<Uuid>) {
    && ReplaceFields(parse, data, names, UrlsOf(Rows(files, ids), view)) ==
       Enriched(parse, data, NameSet(names), UrlsOf(files, view))
    && Enriched(parse, data, NameSet(names), UrlsOf(Rows(files, ids), view)) ==
       Enriched(parse, data, NameSet(names), UrlsOf(files, view))
  }

  lemma NoUrlsNoChange(parse: UuidParser, data: Json, names: set<string>)
    ensures Enriched(parse, data, names, map[]) == data
  {
    if data.Object? {
      forall k | k in data.fields ensures Replace(parse, data.fields[k], map[]) == data.fields[k] {
        ReplaceNothing(parse, data.fields[k]);
      }
      assert Enriched(parse, data, names, map[]).fields == data.fields;
    }
  }

  lemma ReplaceNothing(parse: UuidParser, v: Json)
    ensures Replace(parse, v, map[]) == v
    decreases v
  {
    if v.Array? {
      ReplaceNothingInAll(parse, v.items);
    }
  }

  lemma ReplaceNothingInAll(parse: UuidParser, items: seq<Json>)
    ensures ReplaceAll(parse, items, map[]) == items
    decreases items
  {
    if items != [] {
      ReplaceNothing(parse, items[0]);
      ReplaceNothingInAll(parse, items[1..]);
    }
  }

  // ---------------------------------------------------------------- what enriching keeps

  // Equal but for texts.
  predicate SameShape(v: Json, w: Json)
    decreases v
  {
    if v.Str? then w.Str?
    else if v.Array? then w.Array? && SameShapes(v.items, w.items)
    else v == w
  }

  predicate SameShapes(vs: seq<Json>, ws: seq<Json>)
    decreases vs
  {
    |vs| == |ws| && (vs != [] ==> SameShape(vs[0], ws[0]) && SameShapes(vs[1..], ws[1..]))
  }

  /** Replacing keeps the shape of every value. */
  lemma ReplaceKeepsShape(parse: UuidParser, v: Json, urls: Urls)
    ensures SameShape(v, Replace(parse, v, urls))
    decreases v
  {
    if v.Array? {
      ReplaceKeepsShapes(parse, v.items, urls);
    }
  }

  lemma ReplaceKeepsShapes(parse: UuidParser, items: seq<Json>, urls: Urls)
    ensures SameShapes(items, ReplaceAll(parse, items, urls))
    decreases items
  {
    if items != [] {
      ReplaceKeepsShape(parse, items[0], urls);
      ReplaceKeepsShapes(parse, items[1..], urls);
      assert ReplaceAll(parse, items, urls)[1..] == ReplaceAll(parse, items[1..], urls);
    }
  }

  /** Only file fields change, and those keep their shape. */
  lemma OnlyFileFieldsChange(parse: UuidParser, data: Json, names: set<string>, urls: Urls, name: string)
    ensures Get(Enriched(parse, data, names, urls), name).Some? <==> Get(data, name).Some?
    ensures Get(data, name).Some? ==>
      var before, after := Get(data, name).value, Get(Enriched(parse, data, names, urls), name).value;
      SameShape(before, after) && (name !in names ==> after == before)
  {
    if Get(data, name).Some? {
      ReplaceKeepsShape(parse, data.fields[name], urls);
      ReplaceKeepsShape(parse, data.fields[name], map[]);
      ReplaceNothing(parse, data.fields[name]);
    }
  }

  // No text that is put in is itself replaced by something else.
  ghost predicate ReplacedOnce(parse: UuidParser, urls: Urls) {
    forall s: string :: ReplaceText(parse, ReplaceText(parse, s, urls), urls) == ReplaceText(parse, s, urls)
  }

  lemma ReplaceTwice(parse: UuidParser, v: Json, urls: Urls)
    requires ReplacedOnce(parse, urls)
    ensures Replace(parse, Replace(parse, v, urls), urls) == Replace(parse, v, urls)
    decreases v
  {
    if v.Array? {
      ReplaceAllTwice(parse, v.items, urls);
    }
  }

  lemma ReplaceAllTwice(parse: UuidParser, items: seq<Json>, urls: Urls)
    requires ReplacedOnce(parse, urls)
    ensures ReplaceAll(parse, ReplaceAll(parse, items, urls), urls) == ReplaceAll(parse, items, urls)
    decreases items
  {
    if items != [] {
      ReplaceTwice(parse, items[0], urls);
      ReplaceAllTwice(parse, items[1..], urls);
      assert ReplaceAll(parse, items, urls)[1..] == ReplaceAll(parse, items[1..], urls);
    }
  }

  /** Enriching is idempotent when no URL reads as a UUID. */
  lemma EnrichingIsIdempotent(parse: UuidParser, data: Json, names: set<string>, urls: Urls)
    requires forall id :: id in urls ==> parse(urls[id]).None?
    ensures Enriched(parse, Enriched(parse, data, names, urls), names, urls) == Enriched(parse, data, names, urls)
  {
    var once := Enriched(parse, data, names, urls);
    if data.Object? {
      forall k | k in data.fields && k in names
        ensures Replace(parse, once.fields[k], urls) == once.fields[k]
      {
        ReplaceTwice(parse, data.fields[k], urls);
      }
      assert Enriched(parse, once, names, urls).fields == once.fields;
    }
  }
}
