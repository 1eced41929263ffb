/**
 * File fields in a JSON Schema document: the writer that edits a definition into the
 * document, and the reader that finds the file fields again.
 */
module SchemaFields {
  import opened Collections
  import opened Json
  import opened Wrappers

  const U64_LIMIT := 0x1_0000_0000_0000_0000
  const I64_LIMIT := 0x8000_0000_0000_0000

  type U64 = n: int | 0 <= n < U64_LIMIT
  type I64 = n: int | -I64_LIMIT <= n < I64_LIMIT

  datatype FileConfig = FileConfig(allowedTypes: seq<string>, quota: U64, maxSize: I64, required: bool)

  datatype FileDefinition = FileDefinition(field: string, title: string, config: FileConfig)

  // ---------------------------------------------------------------- JSON pieces

  function Texts(strings: seq<string>): (items: seq<Json>)
    ensures |items| == |strings| && forall i :: 0 <= i < |items| ==> items[i] == Str(strings[i])
  {
    seq(|strings|, i requires 0 <= i < |strings| => Str(strings[i]))
  }

  // The strings among the items; the rest is skipped.
  function Strings(items: seq<Json>): (strings: seq<string>)
    ensures forall s :: s in strings <==> Str(s) in items
  {
    if items == [] then []
    else (if items[0].Str? then [items[0].s] else []) + Strings(items[1..])
  }

  lemma {:induction false} StringsOfTexts(strings: seq<string>)
    ensures Strings(Texts(strings)) == strings
  {
    if strings != [] {
      assert Texts(strings)[1..] == Texts(strings[1..]);
      StringsOfTexts(strings[1..]);
    }
  }

  // serde's entry(name).or_insert_with(default).
  function MemberOr(fields: map<string, Json>, name: string, default: Json): Json {
    if name in fields then fields[name] else default
  }

  const EMPTY_OBJECT := Object(map[])
  const FRESH_SCHEMA := Object(map["type" := Str("object"), "properties" := EMPTY_OBJECT])

  // ---------------------------------------------------------------- writing

  function FileConfigJson(config: FileConfig): Json {
    Object(map["accept" := Array(Texts(config.allowedTypes)), "max_size" := Number(config.maxSize)])
  }

  const FILE_ID_ITEMS := Object(map["type" := Str("string"), "format" := Str("file-id")])

  function WriteField(fieldDef: map<string, Json>, config: FileConfig, title: string): map<string, Json> {
    var marked := fieldDef["x-file-config" := FileConfigJson(config)];
    var typed :=
      if config.quota == 1 then marked["type" := Str("string")]["format" := Str("file-id")]
      else marked["type" := Str("array")]["items" := FILE_ID_ITEMS]["maxItems" := Number(config.quota)];
    typed["title" := Str(title)]
  }

  function WriteRequired(root: map<string, Json>, field: string): Option<map<string, Json>> {
    var required := MemberOr(root, "required", Array([]));
    if !required.Array? then None
    else if Str(field) in required.items then Some(root["required" := required])
    else Some(root["required" := Array(required.items + [Str(field)])])
  }

  // The document after one definition; None where the program panics.
  function WriteDefinition(schema: Json, def: FileDefinition): Option<Json> {
    var root := if schema.Object? then schema.fields else FRESH_SCHEMA.fields;
    var properties := MemberOr(root, "properties", EMPTY_OBJECT);
    if !properties.Object? then None
    else
      var fieldDef := MemberOr(properties.fields, def.field, EMPTY_OBJECT);
      if !fieldDef.Object? then None
      else
        var written := root["properties" := Object(properties.fields[
          def.field := Object(WriteField(fieldDef.fields, def.config, def.title))])];
        if def.config.required then
          match WriteRequired(written, def.field)
          case None => None
          case Some(result) => Some(Object(result))
        else Some(Object(written))
  }

  class SchemaDocument {
    var value: Json

    constructor (value: Json)
      ensures this.value == value
    {
      this.value := value;
    }

    /** into_schema, editing the document in place. */
    method IntoSchema(def: FileDefinition) returns (panicked: bool)
      modifies this
      ensures panicked <==> WriteDefinition(old(value), def).None?
      ensures !panicked ==> Some(value) == WriteDefinition(old(value), def)
    {
      if !value.Object? {
        value := FRESH_SCHEMA;
      }
      ghost var root := value.fields;
      if "properties" !in value.fields {
        value := Object(value.fields["properties" := EMPTY_OBJECT]);
      }
      var properties := value.fields["properties"];
      if !properties.Object? {
        return true;
      }
      var fieldDef := MemberOr(properties.fields, def.field, EMPTY_OBJECT);
      if !fieldDef.Object? {
        return true;
      }
      var edited := fieldDef.fields;
      edited := edited["x-file-config" := FileConfigJson(def.config)];
      if def.config.quota == 1 {
        edited := edited["type" := Str("string")];
        edited := edited["format" := Str("file-id")];
      } else {
        edited := edited["type" := Str("array")];
        edited := edited["items" := FILE_ID_ITEMS];
        edited := edited["maxItems" := Number(def.config.quota)];
      }
      edited := edited["title" := Str(def.title)];
      value := Object(value.fields["properties" := Object(properties.fields[def.field := Object(edited)])]);
      assert value.fields == root["properties" := Object(properties.fields[def.field := Object(edited)])];
      if def.config.required {
        panicked := RequireField(def.field);
        return;
      }
      panicked := false;
    }

    method RequireField(field: string) returns (panicked: bool)
      requires value.Object?
      modifies this
      ensures panicked <==> WriteRequired(old(value).fields, field).None?
      ensures !panicked ==> value == Object(WriteRequired(old(value).fields, field).value)
    {
      if "required" !in value.fields {
        value := Object(value.fields["required" := Array([])]);
      }
      var required := value.fields["required"];
      if !required.Array? {
        return true;
      }
      if Str(field) !in required.items {
        value := Object(value.fields["required" := Array(required.items + [Str(field)])]);
      } else {
        assert value.fields["required" := required] == value.fields;
      }
      panicked := false;
    }

    /** create_template and update_template: one definition after the other. */
    method ApplyDefinitions(defs: seq<FileDefinition>) returns (panicked: bool)
      modifies this
      ensures panicked <==> ApplyAll(old(value), defs).None?
      ensures !panicked ==> Some(value) == ApplyAll(old(value), defs)
    {
      for i := 0 to |defs|
        invariant Some(value) == ApplyAll(old(value), defs[..i])
      {
        ApplyOneMore(old(value), defs, i);
        panicked := this.IntoSchema(defs[i]);
        if panicked {
          ApplyStopsAtPanic(old(value), defs, i + 1);
          return true;
        }
      }
      assert defs[..|defs|] == defs;
      panicked := false;
    }
  }

  function ApplyAll(schema: Json, defs: seq<FileDefinition>): Option<Json> {
    if defs == [] then Some(schema)
    else
      match ApplyAll(schema, defs[..|defs| - 1])
      case None => None
      case Some(before) => WriteDefinition(before, defs[|defs| - 1])
  }

  lemma ApplyOneMore(schema: Json, defs: seq<FileDefinition>, i: nat)
    requires i < |defs| && ApplyAll(schema, defs[..i]).Some?
    ensures ApplyAll(schema, defs[..i + 1]) == WriteDefinition(ApplyAll(schema, defs[..i]).value, defs[i])
  {
    assert defs[..i + 1][..i] == defs[..i];
  }

  lemma {:induction false} ApplyStopsAtPanic(schema: Json, defs: seq<FileDefinition>, i: nat)
    requires i <= |defs| && ApplyAll(schema, defs[..i]).None?
    ensures ApplyAll(schema, defs).None?
    decreases |defs|
  {
    if i < |defs| {
      var init := defs[..|defs| - 1];
      assert init[..i] == defs[..i];
      ApplyStopsAtPanic(schema, init, i);
    } else {
      assert defs[..i] == defs;
    }
  }

  // ---------------------------------------------------------------- reading

  function RequiredList(schema: Json): seq<Json> {
    match Get(schema, "required")
    case Some(Array(items)) => items
    case _ => []
  }

  predicate Requires(schema: Json, field: string) {
    Str(field) in RequiredList(schema)
  }

  function Properties(schema: Json): map<string, Json> {
    match Get(schema, "properties")
    case Some(Object(fields)) => fields
    case _ => map[]
  }

  function AsU64(v: Json): Option<U64> {
    if v.Number? && 0 <= v.n < U64_LIMIT then Some(v.n) else None
  }

  function AsI64(v: Json): Option<I64> {
    if v.Number? && -I64_LIMIT <= v.n < I64_LIMIT then Some(v.n) else None
  }

  function ReadQuota(fieldDef: Json): Option<U64> {
    match Get(fieldDef, "type")
    case Some(Str(t)) =>
      if t == "string" && Get(fieldDef, "format") == Some(Str("file-id")) then Some(1)
      else if t == "array" then
        match Get(fieldDef, "maxItems")
        case Some(v) => AsU64(v)
        case None => None
      else None
    case _ => None
  }

  // try_from_field_def.
  function ReadField(fieldDef: Json, required: bool): Option<FileConfig> {
    match Get(fieldDef, "x-file-config")
    case None => None
    case Some(config) =>
      match Get(config, "accept")
      case Some(Array(items)) =>
        (match Get(config, "max_size")
         case None => None
         case Some(size) =>
           var maxSize, quota := AsI64(size), ReadQuota(fieldDef);
           if maxSize.None? || quota.None? then None
           else Some(FileConfig(Strings(items), quota.value, maxSize.value, required)))
      case _ => None
  }

  // A property that defines a file field with this configuration, whoever wrote it.
  ghost predicate DefinesFile(fieldDef: Json, config: FileConfig) {
    && fieldDef.Object? && "x-file-config" in fieldDef.fields
    && var box := fieldDef.fields["x-file-config"];
    && box.Object? && "accept" in box.fields && "max_size" in box.fields
    && box.fields["max_size"] == Number(config.maxSize)
    && box.fields["accept"].Array? && config.allowedTypes == Strings(box.fields["accept"].items)
    && "type" in fieldDef.fields
    && ((fieldDef.fields["type"] == Str("string") && config.quota == 1
         && "format" in fieldDef.fields && fieldDef.fields["format"] == Str("file-id"))
        || (fieldDef.fields["type"] == Str("array")
            && "maxItems" in fieldDef.fields && fieldDef.fields["maxItems"] == Number(config.quota)))
  }

  /** The reader takes exactly those properties for file fields. */
  lemma ReadFieldIff(fieldDef: Json, config: FileConfig)
    ensures ReadField(fieldDef, config.required) == Some(config) <==> DefinesFile(fieldDef, config)
    ensures ReadField(fieldDef, config.required).Some? ==>
      ReadField(fieldDef, config.required).value.required == config.required
  {
    assert "array" != "string";
  }

  // What the reader finds under one name.
  function FieldOf(schema: Json, field: string): Option<FileConfig> {
    if field in Properties(schema) then ReadField(Properties(schema)[field], Requires(schema, field)) else None
  }

  function FileFields(schema: Json): map<string, FileConfig> {
    map field | field in Properties(schema) && FieldOf(schema, field).Some? :: FieldOf(schema, field).value
  }

  /** try_from_schema: the file fields, or nothing when there is none. */
  method TryFromSchema(schema: Json) returns (configs: Option<map<string, FileConfig>>)
    ensures configs == if FileFields(schema) == map[] then None else Some(FileFields(schema))
  {
    var requiredFields := Strings(RequiredList(schema));
    var properties := Properties(schema);
    var found: map<string, FileConfig> := map[];
    var left := properties.Keys;
    while left != {}
      invariant left <= properties.Keys
      invariant forall f :: f in found <==> f in properties && f !in left && FieldOf(schema, f).Some?
      invariant forall f :: f in found ==> Some(found[f]) == FieldOf(schema, f)
      decreases |left|
    {
      var field :| field in left;
      var config := ReadField(properties[field], field in requiredFields);
      if config.Some? {
        found := found[field := config.value];
      }
      left := left - {field};
    }
    assert found == FileFields(schema);
    configs := if found == map[] then None else Some(found);
  }

  // ---------------------------------------------------------------- the round trip

  // The shape a definition needs: where it looks for an object or an array there is one, or nothing.
  predicate Shaped(schema: Json, def: FileDefinition) {
    schema.Object? ==>
      && MemberOr(schema.fields, "properties", EMPTY_OBJECT).Object?
      && MemberOr(MemberOr(schema.fields, "properties", EMPTY_OBJECT).fields, def.field, EMPTY_OBJECT).Object?
      && (def.config.required ==> MemberOr(schema.fields, "required", Array([])).Array?)
  }

  lemma KeywordsDiffer()
    ensures "x-file-config" != "type" && "x-file-config" != "format" && "x-file-config" != "items"
    ensures "x-file-config" != "maxItems" && "x-file-config" != "title"
    ensures "type" != "format" && "type" != "items" && "type" != "maxItems" && "type" != "title"
    ensures "format" != "title" && "items" != "maxItems" && "maxItems" != "title"
    ensures "accept" != "max_size"
    ensures "items"[0] == 'i' && "title"[0] == 't' && "items" != "title"
  {
  }

  lemma WrittenMembers(fieldDef: map<string, Json>, config: FileConfig, title: string)
    ensures
      var w := WriteField(fieldDef, config, title);
      && Get(Object(w), "x-file-config") == Some(FileConfigJson(config))
      && Get(Object(w), "title") == Some(Str(title))
      && (config.quota == 1 ==>
          Get(Object(w), "type") == Some(Str("string")) && Get(Object(w), "format") == Some(Str("file-id")))
      && (config.quota != 1 ==>
            && Get(Object(w), "type") == Some(Str("array")) && Get(Object(w), "items") == Some(FILE_ID_ITEMS)
            && Get(Object(w), "maxItems") == Some(Number(config.quota)))
  {
    KeywordsDiffer();
  }

  lemma ConfigMembers(config: FileConfig)
    ensures Get(FileConfigJson(config), "accept") == Some(Array(Texts(config.allowedTypes)))
    ensures Get(FileConfigJson(config), "max_size") == Some(Number(config.maxSize))
  {
    KeywordsDiffer();
  }

  lemma WrittenFieldReads(fieldDef: map<string, Json>, config: FileConfig, title: string, required: bool)
    ensures ReadField(Object(WriteField(fieldDef, config, title)), required) == Some(config.(required := required))
  {
    WrittenMembers(fieldDef, config, title);
    ConfigMembers(config);
    StringsOfTexts(config.allowedTypes);
    MembersRead(Object(WriteField(fieldDef, config, title)), config, required);
  }

  // What a field definition reads as depends on these members only.
  lemma MembersRead(v: Json, config: FileConfig, required: bool)
    requires Get(v, "x-file-config") == Some(FileConfigJson(config))
    requires Get(FileConfigJson(config), "accept") == Some(Array(Texts(config.allowedTypes)))
    requires Get(FileConfigJson(config), "max_size") == Some(Number(config.maxSize))
    requires Strings(Texts(config.allowedTypes)) == config.allowedTypes
    requires config.quota == 1 ==> Get(v, "type") == Some(Str("string")) && Get(v, "format") == Some(Str("file-id"))
    requires config.quota != 1 ==>
      Get(v, "type") == Some(Str("array")) && Get(v, "maxItems") == Some(Number(config.quota))
    ensures ReadField(v, required) == Some(config.(required := required))
  {
    assert "array" != "string";
    assert ReadQuota(v) == Some(config.quota);
  }

  lemma WriteRequiredList(root: map<string, Json>, field: string)
    ensures WriteRequired(root, field).Some? <==> MemberOr(root, "required", Array([])).Array?
    ensures WriteRequired(root, field).Some? ==>
      var before, after := Object(root), Object(WriteRequired(root, field).value);
      && RequiredList(after) == RequiredList(before) + (if Requires(before, field) then [] else [Str(field)])
      && Properties(after) == Properties(before)
  {
  }

  // The document with one field definition put in, before the required list is touched.
  function WithField(root: map<string, Json>, properties: map<string, Json>, def: FileDefinition): Json {
    var fieldDef := MemberOr(properties, def.field, EMPTY_OBJECT);
    if fieldDef.Object? then
      PutField(root, properties, def.field, Object(WriteField(fieldDef.fields, def.config, def.title)))
    else Null
  }

  function PutField(root: map<string, Json>, properties: map<string, Json>, field: string, v: Json): Json {
    Object(root["properties" := Object(properties[field := v])])
  }

  lemma PutFieldParts(root: map<string, Json>, properties: map<string, Json>, field: string, v: Json)
    ensures RequiredList(PutField(root, properties, field, v)) == RequiredList(Object(root))
    ensures Properties(PutField(root, properties, field, v)) == properties[field := v]
  {
  }

  lemma WithFieldParts(root: map<string, Json>, properties: map<string, Json>, def: FileDefinition)
    requires MemberOr(root, "properties", EMPTY_OBJECT) == Object(properties)
    requires MemberOr(properties, def.field, EMPTY_OBJECT).Object?
    ensures
      var written := WithField(root, properties, def);
      && written.Object?
      && RequiredList(written) == RequiredList(Object(root))
      && Properties(written).Keys == Properties(Object(root)).Keys + {def.field}
      && (forall f :: f in Properties(Object(root)) && f != def.field ==>
            Properties(written)[f] == Properties(Object(root))[f])
      && (forall required ::
            ReadField(Properties(written)[def.field], required) == Some(def.config.(required := required)))
  {
    var fieldDef := MemberOr(properties, def.field, EMPTY_OBJECT).fields;
    var written := WithField(root, properties, def);
    PutFieldParts(root, properties, def.field, Object(WriteField(fieldDef, def.config, def.title)));
    forall required
      ensures ReadField(Properties(written)[def.field], required) == Some(def.config.(required := required))
    {
      WrittenFieldReads(fieldDef, def.config, def.title, required);
    }
  }

  // One definition: what it writes, and what it leaves alone.
  lemma OneDefinition(schema: Json, def: FileDefinition)
    ensures WriteDefinition(schema, def).Some? <==> Shaped(schema, def)
    ensures WriteDefinition(schema, def).Some? ==>
      var after := WriteDefinition(schema, def).value;
      && after.Object?
      && RequiredList(after) ==
         RequiredList(schema) + (if def.config.required && !Requires(schema, def.field) then [Str(def.field)] else [])
      && Properties(after).Keys == Properties(schema).Keys + {def.field}
      && (forall f :: f in Properties(schema) && f != def.field ==> Properties(after)[f] == Properties(schema)[f])
      && FieldOf(after, def.field) == Some(def.config.(required := def.config.required || Requires(schema, def.field)))
  {
    var root := if schema.Object? then schema.fields else FRESH_SCHEMA.fields;
    assert RequiredList(Object(root)) == RequiredList(schema) && Properties(Object(root)) == Properties(schema);
    var properties := MemberOr(root, "properties", EMPTY_OBJECT);
    if properties.Object? && MemberOr(properties.fields, def.field, EMPTY_OBJECT).Object? {
      WithFieldParts(root, properties.fields, def);
      var written := WithField(root, properties.fields, def);
      WriteRequiredList(written.fields, def.field);
    }
  }

  /** Keywords other than properties and required keep their values. */
  lemma OtherKeywordsStay(schema: Json, def: FileDefinition, keyword: string)
    requires schema.Object? && WriteDefinition(schema, def).Some? && keyword != "properties" && keyword != "required"
    ensures Get(WriteDefinition(schema, def).value, keyword) == Get(schema, keyword)
  {
  }

  lemma SameEntry(m: map<string, Json>, key: string, v: Json)
    requires key in m && m[key] == v
    ensures m[key := v] == m
  {
  }

  lemma WrittenFieldStays(fieldDef: map<string, Json>, config: FileConfig, title: string)
    ensures WriteField(WriteField(fieldDef, config, title), config, title) == WriteField(fieldDef, config, title)
  {
    var w := WriteField(fieldDef, config, title);
    WrittenMembers(fieldDef, config, title);
    SameEntry(w, "x-file-config", FileConfigJson(config));
    if config.quota == 1 {
      SameEntry(w, "type", Str("string"));
      SameEntry(w, "format", Str("file-id"));
    } else {
      SameEntry(w, "type", Str("array"));
      SameEntry(w, "items", FILE_ID_ITEMS);
      SameEntry(w, "maxItems", Number(config.quota));
    }
    SameEntry(w, "title", Str(title));
  }

  /** Applying a definition twice is applying it once. */
  lemma ReapplyingChangesNothing(schema: Json, def: FileDefinition)
    requires WriteDefinition(schema, def).Some?
    ensures WriteDefinition(WriteDefinition(schema, def).value, def) == WriteDefinition(schema, def)
  {
    var after := WriteDefinition(schema, def).value;
    var root := if schema.Object? then schema.fields else FRESH_SCHEMA.fields;
    var earlier := MemberOr(MemberOr(root, "properties", EMPTY_OBJECT).fields, def.field, EMPTY_OBJECT);
    WrittenFieldStays(earlier.fields, def.config, def.title);
    OneDefinition(schema, def);
    var properties := after.fields["properties"];
    var fieldDef := properties.fields[def.field];
    assert fieldDef == Object(WriteField(earlier.fields, def.config, def.title));
    SameEntry(properties.fields, def.field, fieldDef);
    SameEntry(after.fields, "properties", properties);
    if def.config.required {
      SameEntry(after.fields, "required", after.fields["required"]);
    }
  }

  function LastFor(defs: seq<FileDefinition>, field: string): (def: Option<FileDefinition>)
    ensures def.Some? ==> def.value in defs && def.value.field == field
    ensures def.None? ==> forall d :: d in defs ==> d.field != field
  {
    if defs == [] then None
    else if defs[|defs| - 1].field == field then Some(defs[|defs| - 1])
    else LastFor(defs[..|defs| - 1], field)
  }

  predicate SomeRequires(defs: seq<FileDefinition>, field: string) {
    exists d :: d in defs && d.field == field && d.config.required
  }

  lemma SnocRequires(defs: seq<FileDefinition>, field: string)
    requires defs != []
    ensures SomeRequires(defs, field) <==>
      var d := defs[|defs| - 1];
      SomeRequires(defs[..|defs| - 1], field) || (d.field == field && d.config.required)
  {
    assert defs == defs[..|defs| - 1] + [defs[|defs| - 1]];
  }

  /**
   * The fold round trip: after any list of definitions, reading the document gives each
   * defined field the types, quota and size of its last definition, and "required" if
   * and only if the base document or some definition of it required the field. Every
   * other field reads as before.
   */
  lemma {:induction false} FoldRoundTrip(schema: Json, defs: seq<FileDefinition>, field: string)
    requires ApplyAll(schema, defs).Some?
    ensures Requires(ApplyAll(schema, defs).value, field) <==> Requires(schema, field) || SomeRequires(defs, field)
    ensures FieldOf(ApplyAll(schema, defs).value, field) ==
      match LastFor(defs, field)
      case None => FieldOf(schema, field)
      case Some(last) => Some(last.config.(required := Requires(schema, field) || SomeRequires(defs, field)))
    decreases |defs|
  {
    if defs != [] {
      var init, last := defs[..|defs| - 1], defs[|defs| - 1];
      var before := ApplyAll(schema, init).value;
      FoldRoundTrip(schema, init, field);
      OneStepReads(before, last, field);
      SnocRequires(defs, field);
    }
  }

  // What one definition does to one field, its own or another.
  lemma OneStepReads(before: Json, def: FileDefinition, field: string)
    requires WriteDefinition(before, def).Some?
    ensures
      var after := WriteDefinition(before, def).value;
      && (Requires(after, field) <==> Requires(before, field) || (field == def.field && def.config.required))
      && (field == def.field ==> FieldOf(after, field) == Some(def.config.(required := Requires(after, field))))
      && (field != def.field ==> FieldOf(after, field) == FieldOf(before, field))
  {
    OneDefinition(before, def);
  }

  // The added items: no duplicates, and exactly the required fields that were not there.
  ghost predicate Grows(before: seq<Json>, after: seq<Json>, defs: seq<FileDefinition>) {
    && before <= after
    && Distinct(after[|before|..])
    && (forall v :: v in after[|before|..] <==> v !in before && v.Str? && SomeRequires(defs, v.s))
  }

  lemma GrowsOn(before: seq<Json>, middle: seq<Json>, after: seq<Json>, defs: seq<FileDefinition>)
    requires defs != [] && Grows(before, middle, defs[..|defs| - 1])
    requires
      var d := defs[|defs| - 1];
      after == middle + (if d.config.required && Str(d.field) !in middle then [Str(d.field)] else [])
    ensures Grows(before, after, defs)
  {
    var init, last := defs[..|defs| - 1], defs[|defs| - 1];
    var added := middle[|before|..];
    assert middle == before + added;
    forall f ensures SomeRequires(defs, f) <==> SomeRequires(init, f) || (last.field == f && last.config.required) {
      SnocRequires(defs, f);
    }
    if last.config.required && Str(last.field) !in middle {
      assert after[|before|..] == added + [Str(last.field)];
    } else {
      assert after == middle;
    }
  }

  /**
   * The required list only grows at its end, by fields that were not in it, each once.
   */
  lemma {:induction false} RequiredGrowsWithoutDuplicates(schema: Json, defs: seq<FileDefinition>)
    requires ApplyAll(schema, defs).Some?
    ensures Grows(RequiredList(schema), RequiredList(ApplyAll(schema, defs).value), defs)
    decreases |defs|
  {
    if defs != [] {
      var init := defs[..|defs| - 1];
      var middle := ApplyAll(schema, init).value;
      RequiredGrowsWithoutDuplicates(schema, init);
      OneDefinition(middle, defs[|defs| - 1]);
      GrowsOn(RequiredList(schema), RequiredList(middle), RequiredList(ApplyAll(schema, defs).value), defs);
    }
  }

  /** The writer panics exactly when the base document lacks the shape some definition needs. */
  lemma {:induction false} FoldSucceedsIffShaped(schema: Json, defs: seq<FileDefinition>)
    ensures ApplyAll(schema, defs).Some? <==> forall d :: d in defs ==> Shaped(schema, d)
    ensures ApplyAll(schema, defs).Some? ==> forall d :: Shaped(ApplyAll(schema, defs).value, d) <==> Shaped(schema, d)
    decreases |defs|
  {
    if defs != [] {
      var init, last := defs[..|defs| - 1], defs[|defs| - 1];
      FoldSucceedsIffShaped(schema, init);
      assert defs == init + [last];
      if ApplyAll(schema, init).Some? {
        OneDefinition(ApplyAll(schema, init).value, last);
        forall d | Shaped(ApplyAll(schema, init).value, last)
          ensures Shaped(ApplyAll(schema, defs).value, d) <==> Shaped(ApplyAll(schema, init).value, d)
        {
          ShapeIsKept(ApplyAll(schema, init).value, last, d);
        }
      }
    }
  }

  lemma ShapeIsKept(schema: Json, def: FileDefinition, other: FileDefinition)
    requires Shaped(schema, def)
    ensures WriteDefinition(schema, def).Some?
    ensures Shaped(WriteDefinition(schema, def).value, other) <==> Shaped(schema, other)
  {
  }

  // ---------------------------------------------------------------- the guard on submitted schemas

  // TemplateSchema::validate's check that no property is self-defined as a file field.
  predicate NoSelfDefinedFiles(schema: Json) {
    Unmarked(Properties(schema))
  }

  predicate Unmarked(properties: map<string, Json>) {
    forall field :: field in properties ==> Get(properties[field], "x-config-file").None?
  }

  lemma GuardKeywordDiffers()
    ensures "x-config-file" != "x-file-config" && "x-config-file" != "type" && "x-config-file" != "format"
    ensures "x-config-file" != "items" && "x-config-file" != "maxItems" && "x-config-file" != "title"
  {
    assert "x-config-file"[2] == 'c' && "x-file-config"[2] == 'f';
  }

  lemma WriterKeepsGuardKeyword(fieldDef: map<string, Json>, config: FileConfig, title: string)
    ensures "x-config-file" in WriteField(fieldDef, config, title) <==> "x-config-file" in fieldDef
  {
    GuardKeywordDiffers();
  }

  lemma PropertiesAfter(schema: Json, def: FileDefinition)
    requires WriteDefinition(schema, def).Some?
    ensures MemberOr(Properties(schema), def.field, EMPTY_OBJECT).Object?
    ensures
      var fieldDef := MemberOr(Properties(schema), def.field, EMPTY_OBJECT).fields;
      Properties(WriteDefinition(schema, def).value) ==
        Properties(schema)[def.field := Object(WriteField(fieldDef, def.config, def.title))]
  {
    var root := if schema.Object? then schema.fields else FRESH_SCHEMA.fields;
    assert Properties(Object(root)) == Properties(schema);
    WriteRequiredList(WithField(root, Properties(schema), def).fields, def.field);
  }

  lemma GuardIgnoresField(properties: map<string, Json>, def: FileDefinition)
    requires MemberOr(properties, def.field, EMPTY_OBJECT).Object?
    ensures
      var fieldDef := MemberOr(properties, def.field, EMPTY_OBJECT).fields;
      Unmarked(properties[def.field := Object(WriteField(fieldDef, def.config, def.title))]) <==> Unmarked(properties)
  {
    var fieldDef := MemberOr(properties, def.field, EMPTY_OBJECT).fields;
    var written := properties[def.field := Object(WriteField(fieldDef, def.config, def.title))];
    WriterKeepsGuardKeyword(fieldDef, def.config, def.title);
    assert "x-config-file" in WriteField(fieldDef, def.config, def.title) <==>
      Get(written[def.field], "x-config-file").Some?;
    assert forall f :: f in properties && f != def.field ==> f in written && written[f] == properties[f];
  }

  /**
   * The guard cannot see what the writer writes: whatever definitions are applied, the
   * document passes if and only if it passed before, and every defined field is a file
   * field of it. A schema that its author writes that way is not told apart.
   */
  lemma {:induction false} GuardMissesFileFields(schema: Json, defs: seq<FileDefinition>)
    requires ApplyAll(schema, defs).Some?
    ensures NoSelfDefinedFiles(ApplyAll(schema, defs).value) <==> NoSelfDefinedFiles(schema)
    ensures forall d :: d in defs ==> d.field in FileFields(ApplyAll(schema, defs).value)
    decreases |defs|
  {
    if defs != [] {
      var init, last := defs[..|defs| - 1], defs[|defs| - 1];
      GuardMissesFileFields(schema, init);
      PropertiesAfter(ApplyAll(schema, init).value, last);
      GuardIgnoresField(Properties(ApplyAll(schema, init).value), last);
      forall d | d in defs ensures d.field in FileFields(ApplyAll(schema, defs).value) {
        FoldRoundTrip(schema, defs, d.field);
      }
    }
  }

  // A property without the guard's keyword, and a document of such properties.
  function StrippedField(fieldDef: Json): Json {
    if fieldDef.Object? then Object(fieldDef.fields - {"x-config-file"}) else fieldDef
  }

  function StrippedProperties(properties: map<string, Json>): map<string, Json> {
    map field | field in properties :: StrippedField(properties[field])
  }

  function Stripped(schema: Json): Json {
    if Get(schema, "properties").Some? && Get(schema, "properties").value.Object? then
      Object(schema.fields["properties" := Object(StrippedProperties(Properties(schema)))])
    else schema
  }

  lemma ReaderIgnoresGuardKeyword(fieldDef: Json, required: bool)
    ensures ReadField(StrippedField(fieldDef), required) == ReadField(fieldDef, required)
  {
    GuardKeywordDiffers();
    var stripped := StrippedField(fieldDef);
    assert Get(stripped, "x-file-config") == Get(fieldDef, "x-file-config");
    assert Get(stripped, "type") == Get(fieldDef, "type");
    assert Get(stripped, "format") == Get(fieldDef, "format");
    assert Get(stripped, "maxItems") == Get(fieldDef, "maxItems");
  }

  lemma StrippedParts(schema: Json)
    ensures Properties(Stripped(schema)) == StrippedProperties(Properties(schema))
    ensures RequiredList(Stripped(schema)) == RequiredList(schema)
  {
    assert "required" != "properties";
  }

  lemma StrippedReadsAlike(schema: Json)
    ensures FileFields(Stripped(schema)) == FileFields(schema)
  {
    StrippedParts(schema);
    forall field ensures FieldOf(Stripped(schema), field) == FieldOf(schema, field) {
      if field in Properties(schema) {
        ReaderIgnoresGuardKeyword(Properties(schema)[field], Requires(schema, field));
      }
    }
  }

  lemma PassesIffStripped(schema: Json)
    ensures NoSelfDefinedFiles(Stripped(schema))
    ensures NoSelfDefinedFiles(schema) <==> Stripped(schema) == schema
  {
    StrippedParts(schema);
    if NoSelfDefinedFiles(schema) {
      UnmarkedStays(Properties(schema));
      if Get(schema, "properties").Some? && Get(schema, "properties").value.Object? {
        SameEntry(schema.fields, "properties", Object(Properties(schema)));
      }
    }
  }

  /**
   * Guard and reader look at different keywords: every schema has the same file fields as
   * one that passes. A schema passes exactly when it is that one already, so whether it
   * holds file fields never decides.
   */
  lemma PassingSaysNothingOfFileFields(schema: Json)
    ensures NoSelfDefinedFiles(Stripped(schema)) && FileFields(Stripped(schema)) == FileFields(schema)
    ensures NoSelfDefinedFiles(schema) <==> Stripped(schema) == schema
  {
    StrippedReadsAlike(schema);
    PassesIffStripped(schema);
  }

  lemma UnmarkedStays(properties: map<string, Json>)
    requires Unmarked(properties)
    ensures StrippedProperties(properties) == properties
  {
    forall field | field in properties ensures StrippedField(properties[field]) == properties[field] {
      if properties[field].Object? {
        assert properties[field].fields - {"x-config-file"} == properties[field].fields;
      }
    }
  }
}
