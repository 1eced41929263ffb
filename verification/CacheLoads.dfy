/**
 * Loads of a template's context in two steps, reading the row and inserting what it
 * compiles to, while other handlers change rows and clear the cache: exactly when such a
 * load leaves the cache coherent, told from what happened between the two steps.
 */
module CacheLoads {
  import opened Json
  import opened ObjectKeys
  import opened SchemaCache
  import opened Wrappers

  // One step's part: a changed row, a clear, and what the row is left as.
  function Change(step: Step, id: Uuid): nat {
    if step == DeleteRow(id) || (step.UpdateRow? && step.id == id) then 1 else 0
  }

  function Cleared(step: Step, id: Uuid): nat {
    if step == Clear(id) then 1 else 0
  }

  function LeftBy(before: Option<Json>, step: Step, id: Uuid): Option<Json> {
    match step
    case Create(other, schema) => if other == id then Some(schema) else before
    case UpdateRow(other, schema) => if other == id then Some(schema) else before
    case DeleteRow(other) => if other == id then None else before
    case _ => before
  }

  function Changes(steps: seq<Step>, id: Uuid): nat {
    if steps == [] then 0 else Change(steps[0], id) + Changes(steps[1..], id)
  }

  function Clears(steps: seq<Step>, id: Uuid): nat {
    if steps == [] then 0 else Cleared(steps[0], id) + Clears(steps[1..], id)
  }

  // What the last statement on this row has left, if there was one.
  function Stored(before: Option<Json>, steps: seq<Step>, id: Uuid): Option<Json>
    decreases |steps|
  {
    if steps == [] then before else Stored(LeftBy(before, steps[0], id), steps[1..], id)
  }

  function RowOf<V>(s: State<V>, id: Uuid): Option<Json> {
    if id in s.templates then Some(s.templates[id]) else None
  }

  // The process lives on, and this load has not inserted yet.
  predicate StillLoading(steps: seq<Step>, loader: nat) {
    forall i :: 0 <= i < |steps| ==> !steps[i].Restart? && steps[i] != Insert(loader)
  }

  lemma OneStepLoading<V>(compile: Compiler<V>, s: State<V>, step: Step, loader: nat, id: Uuid)
    requires loader in s.loads && Enabled(compile, s, step) && !step.Restart? && step != Insert(loader)
    ensures
      var after := Apply(compile, s, step);
      && loader in after.loads && after.loads[loader] == s.loads[loader]
      && after.clears[id] + Cleared(step, id) == s.clears[id] + Change(step, id)
      && RowOf(after, id) == LeftBy(RowOf(s, id), step, id)
  {
  }

  lemma {:induction false} WhileLoading<V>(compile: Compiler<V>, s: State<V>, steps: seq<Step>, loader: nat, id: Uuid)
    requires loader in s.loads && Legal(compile, s, steps) && StillLoading(steps, loader)
    ensures
      var after := After(compile, s, steps);
      && loader in after.loads && after.loads[loader] == s.loads[loader]
      && after.clears[id] + Clears(steps, id) == s.clears[id] + Changes(steps, id)
      && RowOf(after, id) == Stored(RowOf(s, id), steps, id)
    decreases |steps|
  {
    if steps != [] {
      OneStepLoading(compile, s, steps[0], loader, id);
      WhileLoading(compile, Apply(compile, s, steps[0]), steps[1..], loader, id);
    }
  }

  lemma {:induction false} Extended<V>(compile: Compiler<V>, s: State<V>, steps: seq<Step>, step: Step)
    requires Legal(compile, s, steps) && Enabled(compile, After(compile, s, steps), step)
    ensures Legal(compile, s, steps + [step])
    ensures After(compile, s, steps + [step]) == Apply(compile, After(compile, s, steps), step)
    decreases |steps|
  {
    if steps == [] {
      assert steps + [step] == [step];
    } else {
      Extended(compile, Apply(compile, s, steps[0]), steps[1..], step);
      assert (steps + [step])[1..] == steps[1..] + [step];
    }
  }

  // A load with what happens between its two steps.
  function Load(loader: nat, id: Uuid, between: seq<Step>): seq<Step> {
    [Read(loader, id)] + (between + [Insert(loader)])
  }

  lemma LoadRuns<V>(compile: Compiler<V>, s: State<V>, loader: nat, id: Uuid, between: seq<Step>)
    requires Enabled(compile, s, Read(loader, id))
    requires Legal(compile, Apply(compile, s, Read(loader, id)), between) && StillLoading(between, loader)
    ensures Legal(compile, s, Load(loader, id, between))
    ensures
      var here := After(compile, Apply(compile, s, Read(loader, id)), between);
      && Enabled(compile, here, Insert(loader))
      && here.loads[loader] == (id, ContextOf(compile, s.templates[id]).value)
      && After(compile, s, Load(loader, id, between)) == Apply(compile, here, Insert(loader))
  {
    var read := Apply(compile, s, Read(loader, id));
    WhileLoading(compile, read, between, loader, id);
    Extended(compile, read, between, Insert(loader));
    Prefixed(compile, s, Read(loader, id), between + [Insert(loader)]);
  }

  /**
   * Exactly when a load in two steps does no harm, on every run between them: more changes
   * of the row than clears, counting those under way at the start, so that a clear is still
   * to come; or the row's last statement left a schema that compiles to the same context.
   */
  lemma LoadKeepsCoherenceIff<V>(compile: Compiler<V>, s: State<V>, loader: nat, id: Uuid, between: seq<Step>)
    requires Coherent(compile, s) && Enabled(compile, s, Read(loader, id))
    requires Legal(compile, Apply(compile, s, Read(loader, id)), between) && StillLoading(between, loader)
    requires TimelyRun(compile, Apply(compile, s, Read(loader, id)), between)
    ensures Legal(compile, s, Load(loader, id, between))
    ensures
      var left := Stored(Some(s.templates[id]), between, id);
      Coherent(compile, After(compile, s, Load(loader, id, between))) <==>
        || s.clears[id] + Changes(between, id) > Clears(between, id)
        || (left.Some? && ContextOf(compile, left.value) == ContextOf(compile, s.templates[id]))
  {
    var read := Apply(compile, s, Read(loader, id));
    StepKeepsCoherence(compile, s, Read(loader, id));
    CacheStaysCoherent(compile, read, between);
    WhileLoading(compile, read, between, loader, id);
    LoadRuns(compile, s, loader, id, between);
    InsertKeepsCoherenceIffTimely(compile, After(compile, read, between), loader);
  }

  // ---------------------------------------------------------------- a stale entry

  /** Reading, changing the row, clearing, inserting: coherent exactly if the change changes no context. */
  lemma StraddlingLoad<V>(compile: Compiler<V>, s: State<V>, loader: nat, id: Uuid, schema: Json)
    requires Coherent(compile, s) && Enabled(compile, s, Read(loader, id)) && id !in s.clears
    ensures
      var run := Load(loader, id, [UpdateRow(id, schema), Clear(id)]);
      && Legal(compile, s, run)
      && (Coherent(compile, After(compile, s, run)) <==>
            ContextOf(compile, schema) == ContextOf(compile, s.templates[id]))
  {
    var between := [UpdateRow(id, schema), Clear(id)];
    UpdateAndClearRun(compile, Apply(compile, s, Read(loader, id)), id, schema);
    UpdateAndClearCounts(Some(s.templates[id]), id, schema);
    LoadKeepsCoherenceIff(compile, s, loader, id, between);
  }

  lemma UpdateAndClearRun<V>(compile: Compiler<V>, s: State<V>, id: Uuid, schema: Json)
    requires id in s.templates
    ensures Legal(compile, s, [UpdateRow(id, schema), Clear(id)])
    ensures TimelyRun(compile, s, [UpdateRow(id, schema), Clear(id)])
  {
    var between := [UpdateRow(id, schema), Clear(id)];
    Prefixed(compile, Apply(compile, s, UpdateRow(id, schema)), Clear(id), []);
    Prefixed(compile, s, UpdateRow(id, schema), [Clear(id)] + []);
    assert between == [UpdateRow(id, schema)] + ([Clear(id)] + []);
    AtomicLoadsAreTimely(compile, s, between);
  }

  lemma UpdateAndClearCounts(before: Option<Json>, id: Uuid, schema: Json)
    ensures
      var between := [UpdateRow(id, schema), Clear(id)];
      Changes(between, id) == Clears(between, id) == 1 && Stored(before, between, id) == Some(schema)
  {
    var between := [UpdateRow(id, schema), Clear(id)];
    assert between[1..] == [Clear(id)] && [Clear(id)][1..] == [];
    assert Changes([Clear(id)], id) == 0 && Clears([Clear(id)], id) == 1;
    assert Stored(Some(schema), [Clear(id)], id) == Some(schema);
  }

  // A compiler that keeps the schema itself as its validator.
  function KeepSchema(schema: Json): Option<Json> {
    Some(schema)
  }

  /** A template whose schema goes from one text to another: the old context stays in the cache. */
  lemma StraddlingLoadIsStale(id: Uuid)
    ensures
      var s: State<Json> := State(map[id := Str("old")], map[], multiset{}, map[]);
      var run := Load(0, id, [UpdateRow(id, Str("new")), Clear(id)]);
      && Coherent(KeepSchema, s) && Legal(KeepSchema, s, run)
      && !Coherent(KeepSchema, After(KeepSchema, s, run))
  {
    var s: State<Json> := State(map[id := Str("old")], map[], multiset{}, map[]);
    assert ContextOf(KeepSchema, Str("old")).value.validator == Str("old") != Str("new");
    StraddlingLoad(KeepSchema, s, 0, id, Str("new"));
  }

  // What can change a cached entry: its clear, a restart, or a load of the same template.
  ghost predicate Replaces<V>(s: State<V>, step: Step, id: Uuid) {
    step == Clear(id) || step.Restart? || (step.Insert? && step.loader in s.loads && s.loads[step.loader].0 == id)
  }

  ghost predicate NeverReplaced<V>(compile: Compiler<V>, s: State<V>, steps: seq<Step>, id: Uuid)
    requires Legal(compile, s, steps)
    decreases |steps|
  {
    steps != [] ==>
      !Replaces(s, steps[0], id) && NeverReplaced(compile, Apply(compile, s, steps[0]), steps[1..], id)
  }

  /** Until then an entry stays, stale or not; a miss is no way out, since there is none. */
  lemma {:induction false} EntryStays<V>(compile: Compiler<V>, s: State<V>, steps: seq<Step>, id: Uuid)
    requires id in s.cache && Legal(compile, s, steps) && NeverReplaced(compile, s, steps, id)
    ensures id in After(compile, s, steps).cache && After(compile, s, steps).cache[id] == s.cache[id]
    decreases |steps|
  {
    if steps != [] {
      EntryStays(compile, Apply(compile, s, steps[0]), steps[1..], id);
    }
  }
}
