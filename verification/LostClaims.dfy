/**
 * Claims without a holder: a crash, a failed update or a stopped worker leaves a row
 * Running that no process owns. Whatever the other processes do, the row stays exactly as
 * it is until some reclaim finds it stale, and that reclaim makes it due again.
 */
module LostClaims {
  import opened OutboxProtocol
  import opened OutboxTable

  ghost predicate Unheld(s: State, id: int) {
    forall t :: t in s.holders ==> s.holders[t].id != id
  }

  // A Running row that nobody owns.
  ghost predicate Lost(s: State, id: int) {
    id in s.rows && s.rows[id].status == Running && Unheld(s, id)
  }

  ghost predicate Reclaims(s: State, step: Step, id: int)
    requires id in s.rows
  {
    step.ReclaimStale? && step.timeout != 0 && IsStale(s.rows[id], step.timeout, s.now)
  }

  /** One step, whoever takes it, leaves a lost row alone exactly when it is no reclaim that finds it stale. */
  lemma LostRowStaysIffNotReclaimed(s: State, step: Step, id: int)
    requires Lost(s, id) && Enabled(s, step)
    ensures Unheld(Apply(s, step), id)
    ensures id in Apply(s, step).rows
    ensures Apply(s, step).rows[id] == s.rows[id] <==> !Reclaims(s, step, id)
  {
    if step.ClaimBatch? {
      assert id !in step.claims.Values;
    }
  }

  /** The reclaim that finds it stale makes the row due at once, with its payload. */
  lemma ReclaimMakesDue(s: State, step: Step, id: int)
    requires Lost(s, id) && Enabled(s, step) && Reclaims(s, step, id)
    ensures
      var after := Apply(s, step);
      && id in after.rows && Unheld(after, id)
      && IsDue(after.rows[id], after.now) && after.rows[id].payload == s.rows[id].payload
      && after.rows[id].attempts == s.rows[id].attempts
  {
  }

  // Step i of the run is the first that changes the row, and it is a reclaim.
  ghost predicate ReclaimedAt(s: State, steps: seq<Step>, id: int, i: nat)
    requires id in s.rows
  {
    && i < |steps| && Legal(s, steps[..i])
    && var here := After(s, steps[..i]);
    && Enabled(here, steps[i])
    && Lost(here, id) && here.rows[id] == s.rows[id] && Reclaims(here, steps[i], id)
  }

  lemma ReclaimedLater(s: State, steps: seq<Step>, id: int, i: nat)
    requires steps != [] && Legal(s, steps) && id in s.rows && id in Apply(s, steps[0]).rows
    requires Apply(s, steps[0]).rows[id] == s.rows[id]
    requires ReclaimedAt(Apply(s, steps[0]), steps[1..], id, i)
    ensures ReclaimedAt(s, steps, id, i + 1)
  {
    assert steps[..i + 1][0] == steps[0] && steps[..i + 1][1..] == steps[1..][..i];
  }

  /**
   * In every legal run a lost row either is at the end what it was at the start, and still
   * nobody's, or some step of the run was a reclaim that found it, unchanged, to be stale.
   */
  lemma {:induction false} LostRowWaitsForReclaim(s: State, steps: seq<Step>, id: int)
    requires Lost(s, id) && Legal(s, steps)
    ensures
      || (Lost(After(s, steps), id) && After(s, steps).rows[id] == s.rows[id])
      || exists i: nat :: ReclaimedAt(s, steps, id, i)
    decreases |steps|
  {
    if steps != [] {
      LostRowStaysIffNotReclaimed(s, steps[0], id);
      if Reclaims(s, steps[0], id) {
        assert steps[..0] == [];
        assert ReclaimedAt(s, steps, id, 0);
      } else {
        LostRowWaitsForReclaim(Apply(s, steps[0]), steps[1..], id);
        if i: nat :| ReclaimedAt(Apply(s, steps[0]), steps[1..], id, i) {
          ReclaimedLater(s, steps, id, i);
        }
      }
    }
  }

  // Some reclaim of the run has found the row, unchanged, and made it due again.
  ghost predicate ComesBack(s: State, steps: seq<Step>, id: int)
    requires id in s.rows
  {
    exists i: nat ::
      && ReclaimedAt(s, steps, id, i)
      && var after := Apply(After(s, steps[..i]), steps[i]);
      && id in after.rows && Unheld(after, id)
      && IsDue(after.rows[id], after.now) && after.rows[id].payload == s.rows[id].payload
  }

  /**
   * So a lost row is back no later than the first reclaim after its timeout, whatever
   * happens before: inserts, claims, updates, crashes, other reclaims.
   */
  lemma LostRowComesBack(s: State, steps: seq<Step>, id: int, timeout: nat)
    requires Lost(s, id) && Legal(s, steps) && timeout != 0
    requires s.rows[id].updatedAt + Interval(timeout) < After(s, steps).now
    ensures Legal(s, steps + [ReclaimStale(timeout)])
    ensures ComesBack(s, steps + [ReclaimStale(timeout)], id)
  {
    var reclaim := ReclaimStale(timeout);
    Extended(s, steps, reclaim);
    LostRowWaitsForReclaim(s, steps, id);
    if i: nat :| ReclaimedAt(s, steps, id, i) {
      ReclaimedInLonger(s, steps, reclaim, id, i);
      FoundIsBack(s, steps + [reclaim], id, i);
    } else {
      ReclaimedAtEnd(s, steps, reclaim, id);
      FoundIsBack(s, steps + [reclaim], id, |steps|);
    }
  }

  lemma ReclaimedInLonger(s: State, steps: seq<Step>, last: Step, id: int, i: nat)
    requires id in s.rows && ReclaimedAt(s, steps, id, i)
    ensures ReclaimedAt(s, steps + [last], id, i)
  {
    assert (steps + [last])[..i] == steps[..i];
  }

  lemma ReclaimedAtEnd(s: State, steps: seq<Step>, last: Step, id: int)
    requires id in s.rows && Legal(s, steps) && Enabled(After(s, steps), last) && Lost(After(s, steps), id)
    requires After(s, steps).rows[id] == s.rows[id] && Reclaims(After(s, steps), last, id)
    ensures ReclaimedAt(s, steps + [last], id, |steps|)
  {
    assert (steps + [last])[..|steps|] == steps;
  }

  lemma FoundIsBack(s: State, steps: seq<Step>, id: int, i: nat)
    requires id in s.rows && ReclaimedAt(s, steps, id, i)
    ensures ComesBack(s, steps, id)
  {
    ReclaimMakesDue(After(s, steps[..i]), steps[i], id);
  }

  /** Dropping a holder, alone or with others, is how a row of an exclusive claim gets lost. */
  lemma DroppedIsLost(s: State, tokens: set<nat>, token: nat)
    requires Exclusive(s) && tokens <= s.holders.Keys && token in tokens
    ensures
      var dropped, h := Apply(s, Drop(tokens)), s.holders[token];
      && Lost(dropped, h.id) && dropped.rows[h.id] == s.rows[h.id] && dropped.rows[h.id].updatedAt == h.since
  {
  }

  /**
   * A claim whose holder vanishes, with any others at the same time, comes back: once the
   * timeout has passed since the claim, the row has been or is reclaimed, whatever
   * happened in between.
   */
  lemma LostClaimComesBack(s: State, tokens: set<nat>, token: nat, steps: seq<Step>, timeout: nat)
    requires Exclusive(s) && tokens <= s.holders.Keys && token in tokens && timeout != 0
    requires Legal(Apply(s, Drop(tokens)), steps)
    requires s.holders[token].since + Interval(timeout) < After(Apply(s, Drop(tokens)), steps).now
    ensures s.holders[token].id in Apply(s, Drop(tokens)).rows
    ensures ComesBack(Apply(s, Drop(tokens)), steps + [ReclaimStale(timeout)], s.holders[token].id)
  {
    DroppedIsLost(s, tokens, token);
    LostRowComesBack(Apply(s, Drop(tokens)), steps, s.holders[token].id, timeout);
  }
}
