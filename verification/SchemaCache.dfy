/**
 * The in-memory cache of compiled template schemas against the template table: as a
 * protocol in which changing a row and clearing its cache entry are two steps, and as
 * whole handlers, where the cache must make no difference at all.
 * Compiling a schema and checking an instance are jsonschema's; here they are parameters.
 */
module SchemaCache {
  import opened Errors
  import opened Json
  import opened ObjectKeys
  import opened SchemaFields
  import opened Wrappers

  type Compiler<!V> = Json -> Option<V>

  datatype Context<V> = Context(validator: V, fileFields: Option<map<string, FileConfig>>)

  // from_database_get_template_context, after the row was read.
  function ContextOf<V>(compile: Compiler<V>, schema: Json): Option<Context<V>> {
    match compile(schema)
    case None => None
    case Some(validator) =>
      Some(Context(validator, if FileFields(schema) == map[] then None else Some(FileFields(schema))))
  }

  // ---------------------------------------------------------------- the protocol

  // `clears` are updates and deletes that changed their row and have not cleared the cache
  // yet; `loads` are loads that have read a row and have not inserted it yet.
  datatype State<V> = State(
    templates: map<Uuid, Json>,
    cache: map<Uuid, Context<V>>,
    clears: multiset<Uuid>,
    loads: map<nat, (Uuid, Context<V>)>)

  datatype Step =
    | Create(id: Uuid, schema: Json)
    | UpdateRow(id: Uuid, schema: Json)
    | DeleteRow(id: Uuid)
    | Clear(id: Uuid)
    | LoadMiss(id: Uuid)
    | Read(loader: nat, id: Uuid)
    | Insert(loader: nat)
    | Restart

  ghost predicate Compiles<V>(compile: Compiler<V>, s: State<V>, id: Uuid) {
    id in s.templates && ContextOf(compile, s.templates[id]).Some?
  }

  ghost predicate Enabled<V>(compile: Compiler<V>, s: State<V>, step: Step) {
    match step
    case Create(id, _) => id !in s.templates
    case UpdateRow(id, _) => id in s.templates
    case DeleteRow(id) => id in s.templates
    case Clear(id) => id in s.clears
    case LoadMiss(id) => id !in s.cache && Compiles(compile, s, id)
    case Read(loader, id) => loader !in s.loads && Compiles(compile, s, id)
    case Insert(loader) => loader in s.loads
    case Restart => true
  }

  ghost function Apply<V>(compile: Compiler<V>, s: State<V>, step: Step): State<V>
    requires Enabled(compile, s, step)
  {
    match step
    case Create(id, schema) => s.(templates := s.templates[id := schema])
    case UpdateRow(id, schema) => s.(templates := s.templates[id := schema], clears := s.clears + multiset{id})
    case DeleteRow(id) => s.(templates := s.templates - {id}, clears := s.clears + multiset{id})
    case Clear(id) => s.(cache := s.cache - {id}, clears := s.clears - multiset{id})
    case LoadMiss(id) => s.(cache := s.cache[id := ContextOf(compile, s.templates[id]).value])
    case Read(loader, id) => s.(loads := s.loads[loader := (id, ContextOf(compile, s.templates[id]).value)])
    case Insert(loader) =>
      var (id, context) := s.loads[loader];
      s.(cache := s.cache[id := context], loads := s.loads - {loader})
    case Restart => s.(cache := map[], clears := multiset{}, loads := map[])
  }

  ghost predicate IsCurrent<V>(compile: Compiler<V>, s: State<V>, id: Uuid, context: Context<V>) {
    id in s.templates && ContextOf(compile, s.templates[id]) == Some(context)
  }

  // Every cached context is the one compiled from the stored schema, or a clear for its id
  // is still to come.
  ghost predicate Coherent<V>(compile: Compiler<V>, s: State<V>) {
    forall id :: id in s.cache ==> id in s.clears || IsCurrent(compile, s, id, s.cache[id])
  }

  // An insert that does no harm: its row has not changed since, or a clear is still to come.
  ghost predicate Timely<V>(compile: Compiler<V>, s: State<V>, step: Step) {
    step.Insert? && step.loader in s.loads ==>
      var (id, context) := s.loads[step.loader];
      id in s.clears || IsCurrent(compile, s, id, context)
  }

  lemma StepKeepsCoherence<V>(compile: Compiler<V>, s: State<V>, step: Step)
    requires Coherent(compile, s) && Enabled(compile, s, step) && Timely(compile, s, step)
    ensures Coherent(compile, Apply(compile, s, step))
  {
    var after := Apply(compile, s, step);
    forall id | id in after.cache ensures id in after.clears || IsCurrent(compile, after, id, after.cache[id]) {
      StepKeepsEntry(compile, s, step, id);
    }
  }

  lemma StepKeepsEntry<V>(compile: Compiler<V>, s: State<V>, step: Step, id: Uuid)
    requires Enabled(compile, s, step) && Timely(compile, s, step) && id in Apply(compile, s, step).cache
    requires id in s.cache ==> id in s.clears || IsCurrent(compile, s, id, s.cache[id])
    ensures
      var after := Apply(compile, s, step);
      id in after.clears || IsCurrent(compile, after, id, after.cache[id])
  {
  }

  // What the condition says of the one insert; CacheLoads says what it means for a whole load.
  lemma InsertKeepsCoherenceIffTimely<V>(compile: Compiler<V>, s: State<V>, loader: nat)
    requires Coherent(compile, s) && loader in s.loads
    ensures Coherent(compile, Apply(compile, s, Insert(loader))) <==> Timely(compile, s, Insert(loader))
  {
    var after := Apply(compile, s, Insert(loader));
    var (id, context) := s.loads[loader];
    assert id in after.cache && after.cache[id] == context;
    if Timely(compile, s, Insert(loader)) {
      StepKeepsCoherence(compile, s, Insert(loader));
    }
  }

  ghost predicate Legal<V>(compile: Compiler<V>, s: State<V>, steps: seq<Step>)
    decreases |steps|
  {
    steps != [] ==> Enabled(compile, s, steps[0]) && Legal(compile, Apply(compile, s, steps[0]), steps[1..])
  }

  ghost function After<V>(compile: Compiler<V>, s: State<V>, steps: seq<Step>): State<V>
    requires Legal(compile, s, steps)
    decreases |steps|
  {
    if steps == [] then s else After(compile, Apply(compile, s, steps[0]), steps[1..])
  }

  ghost predicate TimelyRun<V>(compile: Compiler<V>, s: State<V>, steps: seq<Step>)
    requires Legal(compile, s, steps)
    decreases |steps|
  {
    steps != [] ==> Timely(compile, s, steps[0]) && TimelyRun(compile, Apply(compile, s, steps[0]), steps[1..])
  }

  /**
   * Cache coherence: on every run whose inserts are timely, a cached context equals the
   * one compiled from the stored schema, or a clear for that id is still pending.
   */
  lemma {:induction false} CacheStaysCoherent<V>(compile: Compiler<V>, s: State<V>, steps: seq<Step>)
    requires Coherent(compile, s) && Legal(compile, s, steps) && TimelyRun(compile, s, steps)
    ensures Coherent(compile, After(compile, s, steps))
    decreases |steps|
  {
    if steps != [] {
      StepKeepsCoherence(compile, s, steps[0]);
      CacheStaysCoherent(compile, Apply(compile, s, steps[0]), steps[1..]);
    }
  }

  /** With load-on-miss as one step no assumption is left. */
  lemma {:induction false} AtomicLoadsAreTimely<V>(compile: Compiler<V>, s: State<V>, steps: seq<Step>)
    requires Legal(compile, s, steps) && forall i :: 0 <= i < |steps| ==> !steps[i].Insert?
    ensures TimelyRun(compile, s, steps)
    decreases |steps|
  {
    if steps != [] {
      AtomicLoadsAreTimely(compile, Apply(compile, s, steps[0]), steps[1..]);
    }
  }

  lemma Prefixed<V>(compile: Compiler<V>, s: State<V>, step: Step, rest: seq<Step>)
    requires Enabled(compile, s, step) && Legal(compile, Apply(compile, s, step), rest)
    ensures Legal(compile, s, [step] + rest)
    ensures After(compile, s, [step] + rest) == After(compile, Apply(compile, s, step), rest)
  {
    assert ([step] + rest)[1..] == rest;
  }

  // ---------------------------------------------------------------- whole handlers

  datatype Template = Template(schema: Json, isActive: bool)

  datatype Record = Record(template: Uuid, data: Json)

  predicate NeedFile(fileFields: Option<map<string, FileConfig>>) {
    fileFields.Some? && exists field :: field in fileFields.value && fileFields.value[field].required
  }

  // The schema a request asks to store: its own, with the file definitions edited in.
  function Composed(schema: Option<Json>, defs: Option<seq<FileDefinition>>): Result<Option<Json>, AppError> {
    if defs.None? || defs.value == [] then Ok(schema)
    else if schema.None? then Err(Panicked)
    else
      match ApplyAll(schema.value, defs.value)
      case None => Err(Panicked)
      case Some(written) => Ok(Some(written))
  }

  // What file definitions make of a schema: each field defined reads as its last definition,
  // required if the schema or some definition of it says so; other fields read as before.
  ghost predicate Defines(base: Json, stored: Json, defs: seq<FileDefinition>) {
    && (forall i :: 0 <= i < |defs| && IsLast(defs, i) ==>
          var d := defs[i];
          && d.field in FileFields(stored)
          && FileFields(stored)[d.field] ==
             d.config.(required := Requires(base, d.field) || SomeRequires(defs, d.field)))
    && (forall field :: (forall i :: 0 <= i < |defs| ==> defs[i].field != field) ==>
          && (field in FileFields(stored) <==> field in FileFields(base))
          && (field in FileFields(base) ==> FileFields(stored)[field] == FileFields(base)[field]))
  }

  ghost predicate IsLast(defs: seq<FileDefinition>, i: nat)
    requires i < |defs|
  {
    forall j :: i < j < |defs| ==> defs[j].field != defs[i].field
  }

  lemma {:induction false} LastForIs(defs: seq<FileDefinition>, i: nat)
    requires i < |defs| && IsLast(defs, i)
    ensures LastFor(defs, defs[i].field) == Some(defs[i])
    decreases |defs|
  {
    if i < |defs| - 1 {
      var init := defs[..|defs| - 1];
      assert defs[|defs| - 1].field != defs[i].field;
      forall j | i < j < |init| ensures init[j].field != init[i].field {
        assert defs[j].field != defs[i].field;
      }
      LastForIs(init, i);
    }
  }

  lemma ComposedDefines(schema: Json, defs: seq<FileDefinition>)
    requires ApplyAll(schema, defs).Some?
    ensures Defines(schema, ApplyAll(schema, defs).value, defs)
  {
    var stored := ApplyAll(schema, defs).value;
    forall i | 0 <= i < |defs| && IsLast(defs, i)
      ensures
        var d := defs[i];
        && d.field in FileFields(stored)
        && FileFields(stored)[d.field] ==
           d.config.(required := Requires(schema, d.field) || SomeRequires(defs, d.field))
    {
      LastForIs(defs, i);
      FoldRoundTrip(schema, defs, defs[i].field);
    }
    forall field | forall i :: 0 <= i < |defs| ==> defs[i].field != field
      ensures FieldOf(stored, field) == FieldOf(schema, field)
    {
      FoldRoundTrip(schema, defs, field);
    }
  }

  /** What is stored: the schema as given without definitions, else with every definition readable in it. */
  lemma ComposedMeans(schema: Json, defs: Option<seq<FileDefinition>>)
    ensures
      var composed := Composed(Some(schema), defs);
      && (composed.Ok? ==> composed.value.Some?)
      && (composed.Ok? && (defs.None? || defs.value == []) ==> composed.value.value == schema)
      && (composed.Ok? && defs.Some? ==> Defines(schema, composed.value.value, defs.value))
  {
    if defs.Some? && ApplyAll(schema, defs.value).Some? {
      ComposedDefines(schema, defs.value);
    }
  }

  class Templates<V> {
    const compile: Compiler<V>
    const accepts: (V, Json) -> bool

    var templates: map<Uuid, Template>
    var records: map<Uuid, Record>
    var cache: map<Uuid, Context<V>>

    constructor (compile: Compiler<V>, accepts: (V, Json) -> bool)
      ensures Valid() && this.compile == compile && this.accepts == accepts
      ensures templates == map[] && records == map[] && cache == map[]
    {
      this.compile, this.accepts := compile, accepts;
      templates, records, cache := map[], map[], map[];
    }

    ghost predicate CacheIsExact()
      reads this
    {
      forall id :: id in cache ==> id in templates && ContextOf(compile, templates[id].schema) == Some(cache[id])
    }

    // The record's data validate against its template's current schema.
    ghost predicate Fits(record: Record)
      reads this
    {
      && record.template in templates
      && compile(templates[record.template].schema).Some?
      && accepts(compile(templates[record.template].schema).value, record.data)
    }

    ghost predicate Valid()
      reads this
    {
      CacheIsExact() && forall r :: r in records ==> Fits(records[r])
    }

    // What the context would be without a cache.
    ghost function Uncached(id: Uuid): Result<Context<V>, AppError>
      reads this
    {
      if id !in templates then Err(DataNotFound)
      else
        match ContextOf(compile, templates[id].schema)
        case None => Err(UnexpectedError)
        case Some(context) => Ok(context)
    }

    /** get_or_load_template_context gives what compiling the stored schema gives. */
    method GetOrLoadTemplateContext(id: Uuid) returns (result: Result<Context<V>, AppError>)
      requires Valid()
      modifies this`cache
      ensures Valid() && result == Uncached(id)
      ensures cache == if result.Ok? then old(cache)[id := result.value] else old(cache)
    {
      if id in cache {
        assert cache[id := cache[id]] == cache;
        return Ok(cache[id]);
      }
      if id !in templates {
        return Err(DataNotFound);
      }
      var schema := templates[id].schema;
      var validator := compile(schema);
      if validator.None? {
        return Err(UnexpectedError);
      }
      var fileFields := TryFromSchema(schema);
      var context := Context(validator.value, fileFields);
      cache := cache[id := context];
      result := Ok(context);
    }

    method ValidateInstanceById(id: Uuid, data: Json) returns (result: Result<(), AppError>)
      requires Valid()
      modifies this`cache
      ensures Valid()
      ensures result.Ok? <==> Fits(Record(id, data))
      ensures Uncached(id).Err? ==> result == Err(Uncached(id).error)
      ensures result.Err? && Uncached(id).Ok? ==> result.error == ValidationError
    {
      var context := GetOrLoadTemplateContext(id);
      if context.Err? {
        return Err(context.error);
      }
      result := if accepts(context.value.validator, data) then Ok(()) else Err(ValidationError);
    }

    // The checks before the transaction.
    method CheckCreate(template: Uuid, data: Json, hasSession: bool) returns (result: Result<(), AppError>)
      requires Valid()
      modifies this`cache
      ensures Valid()
      ensures result.Ok? <==> Acceptable(template, data, hasSession)
      ensures template !in templates ==> result == Err(DataNotFound)
      ensures template in templates && !templates[template].isActive ==> result == Err(Forbidden)
      ensures Fits(Record(template, data)) && templates[template].isActive ==>
        var fields := FileFields(templates[template].schema);
        result.Ok? <==> hasSession || forall field :: field in fields ==> !fields[field].required
    {
      if template !in templates {
        return Err(DataNotFound);
      }
      if !templates[template].isActive {
        return Err(Forbidden);
      }
      var checked := ValidateInstanceById(template, data);
      if checked.Err? {
        return Err(checked.error);
      }
      var context := GetOrLoadTemplateContext(template);
      assert context.Ok?;
      if !hasSession && NeedFile(context.value.fileFields) {
        return Err(ValidationMessage("session_id"));
      }
      result := Ok(());
    }

    // The condition under which a create is accepted and its transaction can begin.
    ghost predicate Acceptable(template: Uuid, data: Json, hasSession: bool)
      reads this
    {
      && Fits(Record(template, data)) && templates[template].isActive
      && (hasSession || !NeedFile(Uncached(template).value.fileFields))
    }

    /**
     * create_archive_record_handler in one piece. `tookEffect` says whether the transaction
     * with the record's files was committed, `finished` whether commit and the steps after
     * it reported success; ArchiveHandlers says when they do. An error with `tookEffect`
     * leaves the record stored.
     */
    method CreateArchiveRecord(template: Uuid, data: Json, hasSession: bool, tookEffect: bool, finished: bool,
                               freshId: Uuid)
      returns (result: Result<Uuid, AppError>)
      requires Valid() && freshId !in records
      modifies this`cache, this`records
      ensures Valid()
      ensures records == if Acceptable(template, data, hasSession) && tookEffect
                         then old(records)[freshId := Record(template, data)] else old(records)
      ensures result.Ok? <==> Acceptable(template, data, hasSession) && tookEffect && finished
      ensures result.Ok? ==> result.value == freshId
    {
      var checked := CheckCreate(template, data, hasSession);
      if checked.Err? {
        return Err(checked.error);
      }
      if tookEffect {
        records := records[freshId := Record(template, data)];
      }
      if !tookEffect || !finished {
        return Err(UnexpectedError);
      }
      result := Ok(freshId);
    }

    predicate AnyRecordExists(template: Uuid)
      reads this
    {
      exists r :: r in records && records[r].template == template
    }

    method CreateTemplate(schema: Json, defs: Option<seq<FileDefinition>>, freshId: Uuid)
      returns (result: Result<Uuid, AppError>)
      requires Valid() && freshId !in templates
      modifies this`templates
      ensures Valid()
      ensures Composed(Some(schema), defs).Err? ==> result == Err(Panicked) && templates == old(templates)
      ensures Composed(Some(schema), defs).Ok? ==>
        && result == Ok(freshId)
        && templates == old(templates)[freshId := Template(Composed(Some(schema), defs).value.value, true)]
      ensures result.Ok? ==>
        && freshId in templates && templates[freshId].isActive
        && (defs.None? || defs.value == [] ==> templates[freshId].schema == schema)
        && (defs.Some? ==> Defines(schema, templates[freshId].schema, defs.value))
    {
      ComposedMeans(schema, defs);
      var composed := Composed(Some(schema), defs);
      if composed.Err? {
        return Err(composed.error);
      }
      templates := templates[freshId := Template(composed.value.value, true)];
      result := Ok(freshId);
    }

    /** update_template_handler: only while no record uses the template. */
    method UpdateTemplate(id: Uuid, schema: Option<Json>, defs: Option<seq<FileDefinition>>)
      returns (result: Result<(), AppError>)
      requires Valid()
      modifies this`templates, this`cache
      ensures Valid()
      ensures result.Ok? <==> !AnyRecordExists(id) && Composed(schema, defs).Ok? && id in old(templates)
      ensures result.Err? ==>
        result.error ==
          (if AnyRecordExists(id) then DatabaseConflict
           else if Composed(schema, defs).Err? then Panicked else DataNotFound)
      ensures result.Err? ==> templates == old(templates) && cache == old(cache)
      ensures result.Ok? ==> cache == old(cache) - {id}
      ensures result.Ok? ==>
        && (Composed(schema, defs).value.None? ==> templates == old(templates))
        && (Composed(schema, defs).value.Some? ==>
              templates == old(templates)[id := old(templates)[id].(schema := Composed(schema, defs).value.value)])
      ensures result.Ok? && schema.Some? ==>
        && id in templates && (defs.None? || defs.value == [] ==> templates[id].schema == schema.value)
        && (defs.Some? ==> Defines(schema.value, templates[id].schema, defs.value))
      ensures schema.None? ==> templates == old(templates)
    {
      if schema.Some? {
        ComposedMeans(schema.value, defs);
      }
      if AnyRecordExists(id) {
        return Err(DatabaseConflict);
      }
      var composed := Composed(schema, defs);
      if composed.Err? {
        return Err(composed.error);
      }
      if id !in templates {
        return Err(DataNotFound);
      }
      if composed.value.Some? {
        templates := templates[id := templates[id].(schema := composed.value.value)];
      }
      cache := cache - {id};
      result := Ok(());
    }

    method DeleteTemplate(id: Uuid) returns (result: Result<(), AppError>)
      requires Valid()
      modifies this`templates, this`cache
      ensures Valid()
      ensures result.Ok? <==> !AnyRecordExists(id) && id in old(templates)
      ensures result.Err? ==> result.error == (if AnyRecordExists(id) then DatabaseConflict else DataNotFound)
      ensures templates ==
        if result.Ok? then old(templates) - {id} else old(templates)
      ensures cache == if result.Ok? then old(cache) - {id} else old(cache)
    {
      if AnyRecordExists(id) {
        return Err(DatabaseConflict);
      }
      if id !in templates {
        return Err(DataNotFound);
      }
      templates := templates - {id};
      cache := cache - {id};
      result := Ok(());
    }

    method ModifyTemplateStatus(id: Uuid, isActive: bool) returns (result: Result<(), AppError>)
      requires Valid()
      modifies this`templates
      ensures Valid()
      ensures result == if id in old(templates) then Ok(()) else Err(DataNotFound)
      ensures templates ==
        if result.Ok? then old(templates)[id := old(templates)[id].(isActive := isActive)] else old(templates)
    {
      if id !in templates {
        return Err(DataNotFound);
      }
      templates := templates[id := templates[id].(isActive := isActive)];
      result := Ok(());
    }

    method DeleteRecord(template: Uuid, record: Uuid) returns (result: Result<(), AppError>)
      requires Valid()
      modifies this`records
      ensures Valid()
      ensures result.Ok? <==> record in old(records) && old(records)[record].template == template
      ensures records == if result.Ok? then old(records) - {record} else old(records)
    {
      if record !in records || records[record].template != template {
        return Err(DataNotFound);
      }
      records := records - {record};
      result := Ok(());
    }
  }
}
