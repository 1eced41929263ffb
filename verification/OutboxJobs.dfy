/**
 * What the outbox is for, seen from outside: a set of jobs, each Todo, Done or Dead.
 * With punctual holders the protocol refines this machine, in which Done and Dead are
 * final and only a job whose command returned Ok can be Done. Without them it does not.
 */
module OutboxJobs {
  import opened Clock
  import opened OutboxTable
  import opened OutboxProtocol

  datatype Job = Todo | Done | Buried

  datatype Jobs = Jobs(jobs: map<int, Job>, performed: set<int>)

  datatype Move = Stutter | Submit(id: int) | Perform(id: int) | Settle(id: int) | Bury(id: int)

  ghost predicate JobStep(a: Jobs, move: Move, b: Jobs) {
    match move
    case Stutter => b == a
    case Submit(id) => id !in a.jobs && b == a.(jobs := a.jobs[id := Todo])
    case Perform(id) => id in a.jobs && a.jobs[id] == Todo && b == a.(performed := a.performed + {id})
    case Settle(id) =>
      id in a.jobs && a.jobs[id] == Todo && id in a.performed && b == a.(jobs := a.jobs[id := Done])
    case Bury(id) => id in a.jobs && a.jobs[id] == Todo && b == a.(jobs := a.jobs[id := Buried])
  }

  ghost function JobOf(s: State, id: int): Job {
    if id !in s.rows then Done else if s.rows[id].status == Dead then Buried else Todo
  }

  ghost function View(s: State): Jobs {
    Jobs(map id | id in s.submitted :: JobOf(s, id), set id | id in s.submitted && Performed(s, id))
  }

  ghost function MoveOf(s: State, step: Step): Move
    requires Enabled(s, step)
  {
    match step
    case Insert(id, _) => Submit(id)
    case BuryUndecodable(token) => Bury(s.holders[token].id)
    case Execute(token, outcome) => if outcome == Succeeded then Perform(s.holders[token].id) else Stutter
    case Finish(token) =>
      (match s.holders[token].stage.outcome
       case Succeeded => Settle(s.holders[token].id)
       case RetryableError(_) => Stutter
       case NonRetryableError(_) => Bury(s.holders[token].id))
    case _ => Stutter
  }

  /** Forward simulation, one protocol step at a time. */
  lemma StepRefinesJobStep(s: State, step: Step)
    requires NothingLost(s) && Exclusive(s) && Enabled(s, step)
    ensures JobStep(View(s), MoveOf(s, step), View(Apply(s, step)))
  {
    match step
    case Insert(id, payload) => InsertSubmitsJob(s, id, payload);
    case BuryUndecodable(token) => BuryUndecodableBuriesJob(s, token);
    case Finish(token) => FinishSettlesJob(s, token);
    case Execute(token, outcome) => ExecutePerformsJob(s, token, outcome);
    case _ => OthersKeepJobs(s, step);
  }

  lemma OthersKeepJobs(s: State, step: Step)
    requires NothingLost(s) && Exclusive(s) && Enabled(s, step)
    requires !step.Insert? && !step.BuryUndecodable? && !step.Finish? && !step.Execute?
    ensures MoveOf(s, step) == Stutter && View(Apply(s, step)) == View(s)
  {
    SameJobs(s, Apply(s, step));
  }

  lemma BuryUndecodableBuriesJob(s: State, token: nat)
    requires NothingLost(s) && Exclusive(s) && Enabled(s, BuryUndecodable(token))
    ensures JobStep(View(s), Bury(s.holders[token].id), View(Apply(s, BuryUndecodable(token))))
  {
    SameJobsExcept(s, Apply(s, BuryUndecodable(token)), s.holders[token].id);
  }

  lemma FinishSettlesJob(s: State, token: nat)
    requires NothingLost(s) && Exclusive(s) && Enabled(s, Finish(token))
    ensures JobStep(View(s), MoveOf(s, Finish(token)), View(Apply(s, Finish(token))))
  {
    SameJobsExcept(s, Apply(s, Finish(token)), s.holders[token].id);
  }

  lemma InsertSubmitsJob(s: State, id: int, payload: Payload)
    requires NothingLost(s) && Enabled(s, Insert(id, payload))
    ensures JobStep(View(s), Submit(id), View(Apply(s, Insert(id, payload))))
  {
    var s' := Apply(s, Insert(id, payload));
    assert View(s').jobs == View(s).jobs[id := Todo];
    assert View(s').performed == View(s).performed;
  }

  lemma ExecutePerformsJob(s: State, token: nat, outcome: Outcome)
    requires NothingLost(s) && Exclusive(s) && Enabled(s, Execute(token, outcome))
    ensures JobStep(View(s), MoveOf(s, Execute(token, outcome)), View(Apply(s, Execute(token, outcome))))
  {
    var s' := Apply(s, Execute(token, outcome));
    var id := s.holders[token].id;
    assert View(s').jobs == View(s).jobs;
    assert View(s').performed == if outcome == Succeeded then View(s).performed + {id} else View(s).performed;
  }

  lemma SameJobsExcept(s: State, s': State, id: int)
    requires s'.submitted == s.submitted && s'.succeeded == s.succeeded && id in s.submitted
    requires forall other :: other in s.submitted && other != id ==> JobOf(s', other) == JobOf(s, other)
    ensures View(s') == View(s).(jobs := View(s).jobs[id := JobOf(s', id)])
    ensures JobOf(s', id) == JobOf(s, id) ==> View(s') == View(s)
  {
    assert View(s').jobs == View(s).jobs[id := JobOf(s', id)];
    assert View(s').performed == View(s).performed;
  }

  lemma SameJobs(s: State, s': State)
    requires s'.submitted == s.submitted && s'.succeeded == s.succeeded
    requires forall id :: id in s.submitted ==> JobOf(s', id) == JobOf(s, id)
    ensures View(s') == View(s)
  {
    assert View(s').jobs == View(s).jobs;
    assert View(s').performed == View(s).performed;
  }

  /** Done and Dead are final on every punctual run. */
  lemma {:induction false} FinalJobsStayFinal(s: State, steps: seq<Step>, id: int)
    requires NothingLost(s) && Exclusive(s) && Legal(s, steps) && PunctualRun(s, steps)
    requires id in s.submitted && JobOf(s, id) != Todo
    ensures id in After(s, steps).submitted && JobOf(After(s, steps), id) == JobOf(s, id)
    decreases |steps|
  {
    if steps != [] {
      var next := Apply(s, steps[0]);
      StepRefinesJobStep(s, steps[0]);
      assert View(next).jobs[id] == View(s).jobs[id];
      StepLosesNothing(s, steps[0]);
      StepKeepsClaimsExclusive(s, steps[0]);
      FinalJobsStayFinal(next, steps[1..], id);
    }
  }

  // The updates that a late holder can still send: putting its row back, or finishing it
  // with anything but a burial.
  ghost predicate Revives(s: State, step: Step, id: int)
    requires Enabled(s, step)
  {
    && id in s.rows
    && ((step.PutBack? && id in HeldIds(s, step.tokens))
        || (step.Finish? && s.holders[step.token].id == id && !s.holders[step.token].stage.outcome.NonRetryableError?))
  }

  /**
   * With or without punctual holders: a final job changes exactly when its row is still
   * there and a holder that came too late puts it back, requeues it or deletes it.
   */
  lemma FinalJobChangesIffRevived(s: State, step: Step, id: int)
    requires NothingLost(s) && Enabled(s, step) && id in s.submitted && JobOf(s, id) != Todo
    ensures JobOf(Apply(s, step), id) != JobOf(s, id) <==> Revives(s, step, id)
  {
    if step.Finish? && s.holders[step.token].id == id {
      FinishChangesJob(s, step.token, id);
    }
  }

  lemma FinishChangesJob(s: State, token: nat, id: int)
    requires NothingLost(s) && Enabled(s, Finish(token)) && id in s.submitted && JobOf(s, id) != Todo
    requires s.holders[token].id == id
    ensures JobOf(Apply(s, Finish(token)), id) != JobOf(s, id) <==>
      id in s.rows && !s.holders[token].stage.outcome.NonRetryableError?
  {
  }

  /** So Done is final on every run, whoever is late: only a Dead job can change. */
  lemma {:induction false} DoneStaysDone(s: State, steps: seq<Step>, id: int)
    requires NothingLost(s) && Legal(s, steps) && id in s.submitted && JobOf(s, id) == Done
    ensures id in After(s, steps).submitted && JobOf(After(s, steps), id) == Done
    decreases |steps|
  {
    if steps != [] {
      FinalJobChangesIffRevived(s, steps[0], id);
      StepLosesNothing(s, steps[0]);
      DoneStaysDone(Apply(s, steps[0]), steps[1..], id);
    }
  }

  // ---------------------------------------------------------------- late holders

  function EmptyOutbox(): State {
    State(0, map[], map[], {}, map[], {})
  }

  const JOB1 := DeleteArchiveObjects(["k"])

  lemma ThenDo(s: State, steps: seq<Step>, at: State, step: Step) returns (longer: seq<Step>, next: State)
    requires Legal(s, steps) && After(s, steps) == at && Enabled(at, step)
    ensures longer == steps + [step] && next == Apply(at, step)
    ensures Legal(s, longer) && After(s, longer) == next
  {
    Extended(s, steps, step);
    longer := steps + [step];
    next := Apply(at, step);
  }

  const ROW7 := NewRow(Encoded(JOB1), 0)

  // Submit job 7 and start running it at time 0.
  lemma RunJob7() returns (steps: seq<Step>, at: State)
    ensures Legal(EmptyOutbox(), steps) && After(EmptyOutbox(), steps) == at
    ensures at == EmptyOutbox().(
      rows := map[7 := ClaimedRow(ROW7, 0)],
      holders := map[0 := Holder(7, Encoded(JOB1), Executing, 0)],
      offers := {(7, JOB1)},
      submitted := map[7 := Encoded(JOB1)])
  {
    var s0 := EmptyOutbox();
    steps, at := ThenDo(s0, [], s0, Insert(7, Encoded(JOB1)));
    assert at.rows == map[7 := ROW7];
    steps, at := ThenDo(s0, steps, at, ClaimOne(0, 7, JOB1));
    assert at.rows == map[7 := ClaimedRow(ROW7, 0)];
    assert at.holders == map[0 := Holder(7, Encoded(JOB1), Claimed, 0)];
    steps, at := ThenDo(s0, steps, at, Send(0));
    assert at.holders == map[0 := Holder(7, Encoded(JOB1), Queued, 0)];
    steps, at := ThenDo(s0, steps, at, Start(0));
    assert at.holders == map[0 := Holder(7, Encoded(JOB1), Executing, 0)];
  }

  const TWO_SECONDS := 2 * TICKS_PER_SECOND

  // Two seconds on, a reclaim with a one-second timeout takes the running row away.
  lemma ReclaimJob7() returns (steps: seq<Step>, at: State)
    ensures Legal(EmptyOutbox(), steps) && After(EmptyOutbox(), steps) == at
    ensures at.holders == map[0 := Holder(7, Encoded(JOB1), Executing, 0)]
    ensures at.rows == map[7 := ReclaimedRow(ClaimedRow(ROW7, 0), TWO_SECONDS)]
    ensures at.now == TWO_SECONDS && at.submitted == map[7 := Encoded(JOB1)]
  {
    var s0 := EmptyOutbox();
    steps, at := RunJob7();
    steps, at := ThenDo(s0, steps, at, Tick(TWO_SECONDS));
    assert IsStale(at.rows[7], 1, at.now);
    steps, at := ThenDo(s0, steps, at, ReclaimStale(1));
    assert at.rows == map[7 := ReclaimedRow(ClaimedRow(ROW7, 0), TWO_SECONDS)];
  }

  /**
   * Without the hypothesis a row can have two holders: a task outlives the timeout, the
   * row is reclaimed, and a pump claims it again while the first task still runs.
   */
  lemma LateHolderIsClaimedTwice() returns (steps: seq<Step>, at: State)
    ensures Initial(EmptyOutbox()) && Legal(EmptyOutbox(), steps) && After(EmptyOutbox(), steps) == at
    ensures at.holders == map[
      0 := Holder(7, Encoded(JOB1), Executing, 0),
      1 := Holder(7, Encoded(JOB1), Claimed, TWO_SECONDS)]
    ensures 7 in at.rows && at.rows[7].status == Running && at.submitted == map[7 := Encoded(JOB1)]
    ensures !Exclusive(at)
  {
    steps, at := ReclaimJob7();
    var claims: map<nat, int> := map[1 := 7];
    assert claims.Values == {7} by { assert claims[1] == 7; }
    steps, at := ThenDo(EmptyOutbox(), steps, at, ClaimBatch(claims));
    assert 0 in at.holders && 1 in at.holders && at.holders[0].id == at.holders[1].id;
  }

  // The second holder starts too, and both commands end.
  lemma BothHoldersExecute() returns (steps: seq<Step>, at: State)
    ensures Legal(EmptyOutbox(), steps) && After(EmptyOutbox(), steps) == at
    ensures at.holders == map[
      0 := Holder(7, Encoded(JOB1), Finished(NonRetryableError("denied")), 0),
      1 := Holder(7, Encoded(JOB1), Finished(RetryableError("slow")), TWO_SECONDS)]
    ensures 7 in at.rows && at.rows[7].status == Running
  {
    var s0 := EmptyOutbox();
    var first := Holder(7, Encoded(JOB1), Executing, 0);
    steps, at := LateHolderIsClaimedTwice();
    steps, at := ThenDo(s0, steps, at, Send(1));
    assert at.holders == map[0 := first, 1 := Holder(7, Encoded(JOB1), Queued, TWO_SECONDS)];
    steps, at := ThenDo(s0, steps, at, Start(1));
    assert at.holders == map[0 := first, 1 := Holder(7, Encoded(JOB1), Executing, TWO_SECONDS)];
    steps, at := ThenDo(s0, steps, at, Execute(1, RetryableError("slow")));
    steps, at := ThenDo(s0, steps, at, Execute(0, NonRetryableError("denied")));
  }

  /**
   * And then Dead is not final: one of the two holders buries the row, the other, whose
   * update has no status guard, puts it back to Pending.
   */
  lemma LateHolderRevivesDeadRow() returns (steps: seq<Step>, last: Step)
    ensures Legal(EmptyOutbox(), steps) && Enabled(After(EmptyOutbox(), steps), last)
    ensures JobOf(After(EmptyOutbox(), steps), 7) == Buried
    ensures JobOf(Apply(After(EmptyOutbox(), steps), last), 7) == Todo
  {
    var at: State;
    steps, at := BothHoldersExecute();
    steps, at := ThenDo(EmptyOutbox(), steps, at, Finish(0));
    last := Finish(1);
  }
}
