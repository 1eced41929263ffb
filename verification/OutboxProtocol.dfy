/**
 * The outbox as a protocol: any number of dispatchers, pumps and workers act on one
 * task_outbox table, one SQL statement or one in-process move at a time, in any
 * interleaving. A holder is a process's belief that it owns a row: a row a pump or a
 * compare-and-set claimed, an entry of an in-memory queue, or a running task. Crashes,
 * failed updates and timed-out shutdowns drop holders without touching the table.
 */
module OutboxProtocol {
  import opened OutboxTable

  // Seconds before a row that found no queue slot, or whose command failed, is due again.
  const NO_SLOT_DELAY := 1
  const RETRY_DELAY := 5

  datatype Outcome = Succeeded | RetryableError(message: string) | NonRetryableError(message: string)

  datatype Stage = Claimed | Queued | Executing | Finished(outcome: Outcome)

  datatype Holder = Holder(id: int, payload: Payload, stage: Stage, since: int)

  // `submitted` logs every row ever inserted and `succeeded` every run that returned Ok;
  // no step reads them. An offer is a row id with its command in a process's hands that
  // a compare-and-set may still claim: after an insert, or after recovery's SELECT.
  datatype State = State(
    now: int,
    rows: Table,
    holders: map<nat, Holder>,
    offers: set<(int, TaskCommand)>,
    submitted: map<int, Payload>,
    succeeded: set<(int, TaskCommand)>)

  datatype Step =
    | Tick(ticks: nat)
    | Insert(id: int, payload: Payload)
    | Offer(id: int)
    | ClaimOne(token: nat, id: int, command: TaskCommand)
    | ClaimBatch(claims: map<nat, int>)
    | Send(token: nat)
    | BuryUndecodable(token: nat)
    | PutBack(tokens: set<nat>)
    | Start(token: nat)
    | Execute(token: nat, outcome: Outcome)
    | Finish(token: nat)
    | Drop(tokens: set<nat>)
    | ReclaimStale(timeout: nat)

  ghost predicate Enabled(s: State, step: Step) {
    match step
    case Tick(_) => true
    case Insert(id, _) => id !in s.submitted && id !in s.rows
    case Offer(id) => id in s.rows && IsDue(s.rows[id], s.now) && s.rows[id].payload.Encoded?
    case ClaimOne(token, id, command) =>
      && token !in s.holders
      && (id, command) in s.offers
      && id in s.rows && s.rows[id].status == Pending
    case ClaimBatch(claims) =>
      && claims.Keys !! s.holders.Keys
      && (forall t :: t in claims ==> claims[t] in s.rows && IsDue(s.rows[claims[t]], s.now))
      && (forall t, u :: t in claims && u in claims && claims[t] == claims[u] ==> t == u)
    case Send(token) =>
      token in s.holders && s.holders[token].stage == Claimed && s.holders[token].payload.Encoded?
    case BuryUndecodable(token) =>
      token in s.holders && s.holders[token].stage == Claimed && s.holders[token].payload.Malformed?
    case PutBack(tokens) =>
      forall t :: t in tokens ==> t in s.holders && s.holders[t].stage == Claimed
    case Start(token) => token in s.holders && s.holders[token].stage == Queued
    case Execute(token, _) =>
      token in s.holders && s.holders[token].stage == Executing && s.holders[token].payload.Encoded?
    case Finish(token) => token in s.holders && s.holders[token].stage.Finished?
    case Drop(tokens) => tokens <= s.holders.Keys
    case ReclaimStale(_) => true
  }

  ghost function HeldIds(s: State, tokens: set<nat>): set<int> {
    set t | t in tokens && t in s.holders :: s.holders[t].id
  }

  ghost function Restage(s: State, token: nat, stage: Stage): State
    requires token in s.holders
  {
    s.(holders := s.holders[token := s.holders[token].(stage := stage)])
  }

  ghost function FinishRow(rows: Table, id: int, outcome: Outcome, now: int): Table {
    match outcome
    case Succeeded => DeleteRow(rows, id)
    case RetryableError(message) => RequeueRetryable(rows, id, message, RETRY_DELAY, now)
    case NonRetryableError(message) => MarkDead(rows, id, message, now)
  }

  ghost function Apply(s: State, step: Step): State
    requires Enabled(s, step)
  {
    match step
    case Tick(ticks) => s.(now := s.now + ticks)
    case Insert(id, payload) =>
      s.(rows := s.rows[id := NewRow(payload, s.now)],
         submitted := s.submitted[id := payload],
         offers := if payload.Encoded? then s.offers + {(id, payload.command)} else s.offers)
    case Offer(id) => s.(offers := s.offers + {(id, s.rows[id].payload.command)})
    case ClaimOne(token, id, command) =>
      s.(rows := s.rows[id := ClaimedRow(s.rows[id], s.now)],
         holders := s.holders[token := Holder(id, Encoded(command), Claimed, s.now)])
    case ClaimBatch(claims) =>
      s.(rows := ClaimRows(s.rows, claims.Values, s.now),
         holders := s.holders + map t | t in claims :: Holder(claims[t], s.rows[claims[t]].payload, Claimed, s.now))
    case Send(token) => Restage(s, token, Queued)
    case BuryUndecodable(token) =>
      s.(rows := MarkDead(s.rows, s.holders[token].id, "invalid outbox payload: " + s.holders[token].payload.complaint,
                          s.now),
         holders := s.holders - {token})
    case PutBack(tokens) =>
      s.(rows := PutBackRows(s.rows, HeldIds(s, tokens), NO_SLOT_DELAY, s.now),
         holders := s.holders - tokens)
    case Start(token) => Restage(s, token, Executing)
    case Execute(token, outcome) =>
      var h := s.holders[token];
      Restage(s, token, Finished(outcome)).(
        succeeded := if outcome == Succeeded then s.succeeded + {(h.id, h.payload.command)} else s.succeeded)
    case Finish(token) =>
      var h := s.holders[token];
      s.(rows := FinishRow(s.rows, h.id, h.stage.outcome, s.now), holders := s.holders - {token})
    case Drop(tokens) => s.(holders := s.holders - tokens)
    case ReclaimStale(timeout) => s.(rows := Reclaim(s.rows, timeout, s.now))
  }

  // A start: a table left by earlier runs, and no process holding anything yet.
  ghost predicate Initial(s: State) {
    && s.holders == map[] && s.offers == {} && s.succeeded == {}
    && s.submitted == map id | id in s.rows :: s.rows[id].payload
  }

  ghost predicate Legal(s: State, steps: seq<Step>)
    decreases |steps|
  {
    steps != [] ==> Enabled(s, steps[0]) && Legal(Apply(s, steps[0]), steps[1..])
  }

  ghost function After(s: State, steps: seq<Step>): State
    requires Legal(s, steps)
    decreases |steps|
  {
    if steps == [] then s else After(Apply(s, steps[0]), steps[1..])
  }

  lemma Prefixed(s: State, step: Step, rest: seq<Step>)
    requires Enabled(s, step) && Legal(Apply(s, step), rest)
    ensures Legal(s, [step] + rest)
    ensures After(s, [step] + rest) == After(Apply(s, step), rest)
  {
    assert ([step] + rest)[1..] == rest;
  }

  lemma OnlyStep(s: State, step: Step)
    requires Enabled(s, step)
    ensures Legal(s, [step]) && After(s, [step]) == Apply(s, step)
  {
    assert [step][1..] == [];
  }

  lemma {:induction false} Extended(s: State, steps: seq<Step>, step: Step)
    requires Legal(s, steps) && Enabled(After(s, steps), step)
    ensures Legal(s, steps + [step])
    ensures After(s, steps + [step]) == Apply(After(s, steps), step)
    decreases |steps|
  {
    if steps != [] {
      Extended(Apply(s, steps[0]), steps[1..], step);
      assert (steps + [step])[1..] == steps[1..] + [step];
    } else {
      assert steps + [step] == [step];
    }
  }

  // ---------------------------------------------------------------- exclusive claim

  // No two holders for one row, and every held row is Running since the claim.
  ghost predicate Exclusive(s: State) {
    && (forall t, u :: t in s.holders && u in s.holders && s.holders[t].id == s.holders[u].id ==> t == u)
    && (forall t :: t in s.holders ==>
          var h := s.holders[t];
          && h.id in s.rows && s.rows[h.id].status == Running && s.rows[h.id].updatedAt == h.since)
  }

  // The timeout hypothesis, asked only when a reclaim runs: no holder has kept its row
  // for longer than that reclaim's timeout.
  ghost predicate Punctual(s: State, step: Step) {
    step.ReclaimStale? && step.timeout != 0 ==>
      forall t :: t in s.holders ==> s.now - Interval(step.timeout) <= s.holders[t].since
  }

  ghost predicate PunctualRun(s: State, steps: seq<Step>)
    requires Legal(s, steps)
    decreases |steps|
  {
    steps != [] ==> Punctual(s, steps[0]) && PunctualRun(Apply(s, steps[0]), steps[1..])
  }

  lemma StepKeepsClaimsExclusive(s: State, step: Step)
    requires Exclusive(s) && Enabled(s, step) && Punctual(s, step)
    ensures Exclusive(Apply(s, step))
  {
    var s' := Apply(s, step);
    if step.ClaimBatch? {
      BatchClaimKeepsExclusive(s, step.claims);
    } else if step.PutBack? {
      forall t | t in s'.holders ensures s'.rows[s'.holders[t].id] == s.rows[s.holders[t].id] {
        assert s.holders[t].id !in HeldIds(s, step.tokens);
      }
    }
  }

  // A due row is Pending, so nobody holds it.
  lemma ClaimedIsNotHeld(s: State, claims: map<nat, int>, t: nat, u: nat)
    requires Exclusive(s) && Enabled(s, ClaimBatch(claims)) && t in claims && u in s.holders
    ensures claims[t] != s.holders[u].id && u !in claims
  {
  }

  lemma HolderAfterClaim(s: State, claims: map<nat, int>, t: nat)
    requires Exclusive(s) && Enabled(s, ClaimBatch(claims)) && t in Apply(s, ClaimBatch(claims)).holders
    ensures
      var h := Apply(s, ClaimBatch(claims)).holders[t];
      && h.id in s.rows
      && (t in claims ==> h.id == claims[t] && h.since == s.now && h.id in claims.Values)
      && (t !in claims ==> t in s.holders && h == s.holders[t] && h.id !in claims.Values)
  {
    if t in s.holders {
      forall u | u in claims ensures claims[u] != s.holders[t].id {
        ClaimedIsNotHeld(s, claims, u, t);
      }
    } else {
      assert claims[t] in claims.Values;
    }
  }

  lemma BatchClaimKeepsExclusive(s: State, claims: map<nat, int>)
    requires Exclusive(s) && Enabled(s, ClaimBatch(claims))
    ensures Exclusive(Apply(s, ClaimBatch(claims)))
  {
    var s' := Apply(s, ClaimBatch(claims));
    forall t, u | t in s'.holders && u in s'.holders && s'.holders[t].id == s'.holders[u].id ensures t == u {
      HolderAfterClaim(s, claims, t);
      HolderAfterClaim(s, claims, u);
    }
    forall t | t in s'.holders
      ensures
        var h := s'.holders[t];
        h.id in s'.rows && s'.rows[h.id].status == Running && s'.rows[h.id].updatedAt == h.since
    {
      HolderAfterClaim(s, claims, t);
    }
  }

  /** Exclusive claim, over every legal run in which holders let go in time. */
  lemma {:induction false} ClaimsStayExclusive(s: State, steps: seq<Step>)
    requires Exclusive(s) && Legal(s, steps) && PunctualRun(s, steps)
    ensures Exclusive(After(s, steps))
    decreases |steps|
  {
    if steps != [] {
      StepKeepsClaimsExclusive(s, steps[0]);
      ClaimsStayExclusive(Apply(s, steps[0]), steps[1..]);
    }
  }

  /** The hypothesis is exact: a reclaim keeps claims exclusive if and only if no holder is late. */
  lemma ReclaimIsSafeIffPunctual(s: State, timeout: nat)
    requires Exclusive(s)
    ensures Exclusive(Apply(s, ReclaimStale(timeout))) <==> Punctual(s, ReclaimStale(timeout))
  {
    var s' := Apply(s, ReclaimStale(timeout));
    if timeout != 0 && !Punctual(s, ReclaimStale(timeout)) {
      var t :| t in s.holders && s.holders[t].since < s.now - Interval(timeout);
      assert IsStale(s.rows[s.holders[t].id], timeout, s.now);
      assert s'.rows[s'.holders[t].id].status == Pending;
    }
  }

  // ---------------------------------------------------------------- at least once

  ghost predicate Performed(s: State, id: int) {
    && id in s.submitted && s.submitted[id].Encoded?
    && (id, s.submitted[id].command) in s.succeeded
  }

  // What holds on every run, punctual or not: rows, offers and holders carry the payload
  // that was submitted under their id, and an id without a row was performed.
  ghost predicate NothingLost(s: State) {
    && (forall id :: id in s.rows ==> RowKnown(s, id))
    && (forall o :: o in s.offers ==> CommandKnown(s, o))
    && (forall t :: t in s.holders ==> HolderKnown(s, s.holders[t]))
    && (forall o :: o in s.succeeded ==> CommandKnown(s, o))
    && (forall id :: id in s.submitted && id !in s.rows ==> Performed(s, id))
  }

  ghost predicate RowKnown(s: State, id: int)
    requires id in s.rows
  {
    id in s.submitted && s.rows[id].payload == s.submitted[id]
  }

  ghost predicate CommandKnown(s: State, o: (int, TaskCommand)) {
    o.0 in s.submitted && s.submitted[o.0] == Encoded(o.1)
  }

  ghost predicate HolderKnown(s: State, h: Holder) {
    && h.id in s.submitted && s.submitted[h.id] == h.payload
    && (h.stage == Finished(Succeeded) ==> Performed(s, h.id))
  }

  lemma InitialLosesNothing(s: State)
    requires Initial(s)
    ensures NothingLost(s) && Exclusive(s)
  {
  }

  // Steps that only rewrite rows: ids and payloads are as before.
  ghost predicate SamePayloads(a: Table, b: Table) {
    a.Keys == b.Keys && forall id :: id in a ==> a[id].payload == b[id].payload
  }

  lemma RewritingLosesNothing(s: State, s': State)
    requires NothingLost(s) && SamePayloads(s.rows, s'.rows)
    requires s'.submitted == s.submitted && s'.succeeded == s.succeeded
    requires forall t :: t in s'.holders ==> HolderKnown(s, s'.holders[t])
    requires forall o :: o in s'.offers ==> CommandKnown(s, o)
    ensures NothingLost(s')
  {
    forall id | id in s'.rows ensures RowKnown(s', id) {
      assert RowKnown(s, id);
    }
    forall t | t in s'.holders ensures HolderKnown(s', s'.holders[t]) {
      assert HolderKnown(s, s'.holders[t]);
    }
  }

  lemma InsertLosesNothing(s: State, id: int, payload: Payload)
    requires NothingLost(s) && Enabled(s, Insert(id, payload))
    ensures NothingLost(Apply(s, Insert(id, payload)))
  {
    var s' := Apply(s, Insert(id, payload));
    forall other | other in s.submitted && Performed(s, other) ensures Performed(s', other) {}
    forall t | t in s'.holders ensures HolderKnown(s', s'.holders[t]) {
      assert HolderKnown(s, s.holders[t]);
    }
    forall other | other in s'.rows ensures RowKnown(s', other) {
      assert other != id ==> RowKnown(s, other);
    }
  }

  lemma ClaimLosesNothing(s: State, claims: map<nat, int>)
    requires NothingLost(s) && Enabled(s, ClaimBatch(claims))
    ensures NothingLost(Apply(s, ClaimBatch(claims)))
  {
    var s' := Apply(s, ClaimBatch(claims));
    forall t | t in s'.holders ensures HolderKnown(s, s'.holders[t]) {
      if t in claims {
        assert RowKnown(s, claims[t]);
      } else {
        assert HolderKnown(s, s.holders[t]);
      }
    }
    RewritingLosesNothing(s, s');
  }

  lemma ExecuteLosesNothing(s: State, token: nat, outcome: Outcome)
    requires NothingLost(s) && Enabled(s, Execute(token, outcome))
    ensures NothingLost(Apply(s, Execute(token, outcome)))
  {
    var s' := Apply(s, Execute(token, outcome));
    assert HolderKnown(s, s.holders[token]);
    forall id | Performed(s, id) ensures Performed(s', id) {}
    forall t | t in s'.holders ensures HolderKnown(s', s'.holders[t]) {
      assert t != token ==> HolderKnown(s, s.holders[t]);
    }
    forall id | id in s'.rows ensures RowKnown(s', id) {
      assert RowKnown(s, id);
    }
  }

  lemma FinishLosesNothing(s: State, token: nat)
    requires NothingLost(s) && Enabled(s, Finish(token))
    ensures NothingLost(Apply(s, Finish(token)))
  {
    var s', h := Apply(s, Finish(token)), s.holders[token];
    assert HolderKnown(s, h);
    forall t | t in s'.holders ensures HolderKnown(s, s'.holders[t]) {
      assert HolderKnown(s, s.holders[t]);
    }
    if h.stage.outcome == Succeeded {
      forall id | id in s'.rows ensures RowKnown(s', id) {
        assert RowKnown(s, id);
      }
      forall t | t in s'.holders ensures HolderKnown(s', s'.holders[t]) {
        assert HolderKnown(s, s'.holders[t]);
      }
    } else {
      RewritingLosesNothing(s, s');
    }
  }

  lemma StepLosesNothing(s: State, step: Step)
    requires NothingLost(s) && Enabled(s, step)
    ensures NothingLost(Apply(s, step))
  {
    match step {
      case Insert(id, payload) => InsertLosesNothing(s, id, payload);
      case ClaimBatch(claims) => ClaimLosesNothing(s, claims);
      case Execute(token, outcome) => ExecuteLosesNothing(s, token, outcome);
      case Finish(token) => FinishLosesNothing(s, token);
      case _ => OtherStepLosesNothing(s, step);
    }
  }

  lemma OtherStepLosesNothing(s: State, step: Step)
    requires NothingLost(s) && Enabled(s, step)
    requires !step.Insert? && !step.ClaimBatch? && !step.Execute? && !step.Finish?
    ensures NothingLost(Apply(s, step))
  {
    var s' := Apply(s, step);
    forall t | t in s'.holders ensures HolderKnown(s, s'.holders[t]) {
      assert t in s.holders ==> HolderKnown(s, s.holders[t]);
    }
    if step.Offer? {
      assert RowKnown(s, step.id);
    }
    RewritingLosesNothing(s, s');
  }

  /**
   * At least once, on every legal run from a start, with crashes, late holders and
   * double claims: an id ever inserted is still a row, or a run of the very command
   * submitted under that id returned Ok.
   */
  lemma {:induction false} AtLeastOnce(s: State, steps: seq<Step>)
    requires NothingLost(s) && Legal(s, steps)
    ensures NothingLost(After(s, steps))
    decreases |steps|
  {
    if steps != [] {
      StepLosesNothing(s, steps[0]);
      AtLeastOnce(Apply(s, steps[0]), steps[1..]);
    }
  }

  lemma EveryJobKeptOrPerformed(s: State, steps: seq<Step>, id: int)
    requires Initial(s) && Legal(s, steps) && id in After(s, steps).submitted
    ensures id in After(s, steps).rows || Performed(After(s, steps), id)
  {
    InitialLosesNothing(s);
    AtLeastOnce(s, steps);
  }
}
