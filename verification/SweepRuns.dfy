/**
 * The sweep as a run of the reconciliation protocol: the archive keys that a pass deletes
 * are the ones its protocol steps doom and destroy.
 */
module SweepRuns {
  import opened Clock
  import opened ObjectKeys
  import opened ObjectStorage
  import opened Reconciliation
  import opened Wrappers
  import S3Cleanup

  // Bucket and table of the sweep agree with the protocol's state on destination keys.
  ghost predicate Mirrors(s: State, objects: map<string, int>, fileKeys: set<string>) {
    && (forall k: Key :: k.Archive? ==> (k in s.store <==> Text(k) in objects))
    && (forall k: Key :: k.Archive? && k in s.store ==> objects[Text(k)] == s.store[k])
    && (forall k: Key :: k.Archive? ==> (k in Referenced(s) <==> Text(k) in fileKeys))
  }

  // The archive keys of one pass.
  ghost function Orphans(s: State, objects: map<string, int>, fileKeys: set<string>, users: map<Uuid, Option<string>>,
                         minAge: nat): set<Key> {
    set k | k in s.store && k.Archive? && S3Cleanup.IsOrphan(Text(k), objects, fileKeys, users, Seconds(s.now), minAge)
  }

  ghost function OldArchiveKeys(s: State, minAge: nat): set<Key> {
    set k | k in s.store && k.Archive? && OldEnough(Seconds(s.now), Seconds(s.store[k]), minAge)
  }

  lemma OrphansAreUnreferenced(s: State, objects: map<string, int>, fileKeys: set<string>,
                               users: map<Uuid, Option<string>>, minAge: nat)
    requires Mirrors(s, objects, fileKeys)
    ensures Orphans(s, objects, fileKeys, users, minAge) == OldArchiveKeys(s, minAge) - Referenced(s)
  {
    forall k | k in s.store && k.Archive?
      ensures S3Cleanup.IsOrphan(Text(k), objects, fileKeys, users, Seconds(s.now), minAge) <==>
        OldEnough(Seconds(s.now), Seconds(s.store[k]), minAge) && k !in Referenced(s)
    {
      ArchiveDestKeyBelongs(k.record, k.file);
      PrefixesAreDisjoint(Text(k));
    }
  }

  lemma StepAfterListing(s: State, sweep: nat, minAge: nat) returns (next: State)
    requires sweep !in s.sweeps
    ensures Enabled(s, SweepBegin(sweep), minAge)
    ensures
      var begun := Apply(s, SweepBegin(sweep), minAge);
      && Enabled(begun, SweepPage(sweep, OldArchiveKeys(s, minAge)), minAge)
      && next == Apply(begun, SweepPage(sweep, OldArchiveKeys(s, minAge)), minAge)
    ensures next == s.(sweeps := s.sweeps[sweep := Sweep(s.now, OldArchiveKeys(s, minAge))])
  {
    var begun := Apply(s, SweepBegin(sweep), minAge);
    next := Apply(begun, SweepPage(sweep, OldArchiveKeys(s, minAge)), minAge);
    assert {} + OldArchiveKeys(s, minAge) == OldArchiveKeys(s, minAge);
  }

  /** A pass nobody interferes with is a protocol run that destroys exactly its orphans. */
  lemma SweepIsProtocolRun(s: State, sweep: nat, objects: map<string, int>, fileKeys: set<string>,
                           users: map<Uuid, Option<string>>, minAge: nat)
    returns (steps: seq<Step>)
    requires sweep !in s.sweeps && Mirrors(s, objects, fileKeys)
    ensures Legal(s, steps, minAge)
    ensures
      var orphans := Orphans(s, objects, fileKeys, users, minAge);
      After(s, steps, minAge) == s.(store := s.store - orphans, doomed := s.doomed + orphans)
  {
    var orphans := Orphans(s, objects, fileKeys, users, minAge);
    OrphansAreUnreferenced(s, objects, fileKeys, users, minAge);
    var begun := Apply(s, SweepBegin(sweep), minAge);
    var listed := StepAfterListing(s, sweep, minAge);
    var page := SweepPage(sweep, OldArchiveKeys(s, minAge));
    assert Referenced(listed) == Referenced(s);
    var read := Apply(listed, SweepRead(sweep), minAge);
    assert read == s.(doomed := s.doomed + orphans) by {
      assert listed.sweeps - {sweep} == s.sweeps;
    }
    assert Legal(Apply(read, Destroy(orphans), minAge), [], minAge);
    Prefixed(read, Destroy(orphans), [], minAge);
    Prefixed(listed, SweepRead(sweep), [Destroy(orphans)] + [], minAge);
    Prefixed(begun, page, [SweepRead(sweep)] + ([Destroy(orphans)] + []), minAge);
    Prefixed(s, SweepBegin(sweep), [page] + ([SweepRead(sweep)] + ([Destroy(orphans)] + [])), minAge);
    steps := [SweepBegin(sweep)] + ([page] + ([SweepRead(sweep)] + ([Destroy(orphans)] + [])));
  }
}
