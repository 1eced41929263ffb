/**
 * The command worker inside the outbox protocol: the entries of its channel are queued
 * holders, its tasks in flight are executing or finished ones, and whatever it does is at
 * most one protocol step. Running tasks and every other process act in between. So what a
 * stopped worker leaves in its channel are lost claims, and they come back.
 */
module WorkerRuns {
  import opened Collections
  import opened Dispatcher
  import opened LostClaims
  import opened OutboxProtocol
  import opened OutboxTable
  import opened WorkerPool
  import opened Wrappers

  // A worker next to the outbox, with the holder's name for each task it has.
  datatype System = System(outbox: State, worker: Worker, queued: seq<nat>, running: seq<nat>)

  // The token names the holder of a task that arrives.
  datatype Event = Own(choice: Choice, token: nat) | Elsewhere(step: Step)

  ghost predicate Owns(h: Holder, task: QueuedTask) {
    task.outboxId == Some(h.id) && h.payload == Encoded(task.command)
  }

  // An in-memory task has no holder.
  ghost predicate IsQueued(s: State, task: QueuedTask, token: nat) {
    if task.outboxId.None? then token !in s.holders
    else token in s.holders && Owns(s.holders[token], task) && s.holders[token].stage == Queued
  }

  // A running task has its row until it has finished it, or has failed to.
  ghost predicate IsRunning(s: State, task: QueuedTask, token: nat) {
    token in s.holders ==>
      Owns(s.holders[token], task) && (s.holders[token].stage.Executing? || s.holders[token].stage.Finished?)
  }

  ghost predicate QueueLinked(s: State, tasks: seq<QueuedTask>, tokens: seq<nat>) {
    && |tokens| == |tasks| && Distinct(tokens)
    && forall i :: 0 <= i < |tasks| ==> IsQueued(s, tasks[i], tokens[i])
  }

  ghost predicate FlightLinked(s: State, tasks: seq<QueuedTask>, tokens: seq<nat>) {
    && |tokens| == |tasks| && Distinct(tokens)
    && forall i :: 0 <= i < |tasks| ==> IsRunning(s, tasks[i], tokens[i])
  }

  ghost predicate Linked(c: System) {
    && QueueLinked(c.outbox, c.worker.queue, c.queued) && FlightLinked(c.outbox, c.worker.inFlight, c.running)
    && Apart(c.queued, c.running)
  }

  ghost predicate Apart(a: seq<nat>, b: seq<nat>) {
    forall i, j :: 0 <= i < |a| && 0 <= j < |b| ==> a[i] != b[j]
  }

  ghost function Uses(step: Step): set<nat> {
    match step
    case ClaimOne(token, _, _) => {token}
    case ClaimBatch(claims) => claims.Keys
    case Send(token) => {token}
    case BuryUndecodable(token) => {token}
    case PutBack(tokens) => tokens
    case Start(token) => {token}
    case Execute(token, _) => {token}
    case Finish(token) => {token}
    case Drop(tokens) => tokens
    case _ => {}
  }

  // Others leave the channel's entries alone; a running task ends its command, updates its
  // row or fails to. Names are not used twice.
  ghost predicate Spares(c: System, step: Step) {
    && (forall i :: 0 <= i < |c.queued| ==> c.queued[i] !in Uses(step))
    && (forall i :: 0 <= i < |c.running| && c.running[i] in Uses(step) ==>
          step.Execute? || step.Finish? || step.Drop?)
  }

  // A task arrives with a sender's claim, or in memory.
  ghost predicate MayArrive(c: System, task: QueuedTask, token: nat) {
    && token !in c.queued && token !in c.running
    && if task.outboxId.None? then token !in c.outbox.holders
       else token in c.outbox.holders && Owns(c.outbox.holders[token], task)
            && c.outbox.holders[token].stage == Claimed
  }

  ghost predicate Allowed(c: System, event: Event, maxInFlight: nat) {
    match event
    case Own(choice, token) =>
      choice.Arrive? && Ready(c.worker, choice, maxInFlight) ==> MayArrive(c, choice.task, token)
    case Elsewhere(step) => Enabled(c.outbox, step) && Spares(c, step)
  }

  ghost function HeldOf(s: State, tokens: seq<nat>): set<nat> {
    set t | t in tokens && t in s.holders
  }

  // ---------------------------------------------------------------- one event

  // What the event is for the protocol: one step, or none.
  ghost function StepsOf(c: System, event: Event, maxInFlight: nat): seq<Step>
    requires Linked(c)
  {
    match event
    case Elsewhere(step) => [step]
    case Own(choice, token) =>
      if !Ready(c.worker, choice, maxInFlight) then []
      else match choice
        case Arrive(task) => if task.outboxId.Some? then [Send(token)] else []
        case Receive =>
          if c.worker.queue != [] && c.worker.queue[0].outboxId.Some? then [Start(c.queued[0])] else []
        case TaskDone(index) => [Drop(HeldOf(c.outbox, [c.running[index]]))]
        case Abort => [Drop(HeldOf(c.outbox, c.running))]
        case _ => []
  }

  // The names afterwards.
  ghost function QueuedAfter(c: System, event: Event, maxInFlight: nat): seq<nat>
    requires Linked(c)
  {
    if event.Elsewhere? || !Ready(c.worker, event.choice, maxInFlight) then c.queued
    else match event.choice
      case Arrive(_) => c.queued + [event.token]
      case Receive => if c.queued == [] then [] else c.queued[1..]
      case _ => c.queued
  }

  ghost function RunningAfter(c: System, event: Event, maxInFlight: nat): seq<nat>
    requires Linked(c)
  {
    if event.Elsewhere? || !Ready(c.worker, event.choice, maxInFlight) then c.running
    else match event.choice
      case Receive => if c.queued == [] then c.running else c.running + [c.queued[0]]
      case TaskDone(index) => c.running[..index] + c.running[index + 1..]
      case Abort => []
      case _ => c.running
  }

  ghost function WorkerAfter(w: Worker, event: Event, maxInFlight: nat): Worker {
    if event.Elsewhere? then w else Turn(w, event.choice, maxInFlight)
  }

  lemma StepsAreLegal(c: System, event: Event, maxInFlight: nat)
    requires Linked(c) && Allowed(c, event, maxInFlight)
    ensures Legal(c.outbox, StepsOf(c, event, maxInFlight))
  {
    var steps := StepsOf(c, event, maxInFlight);
    if steps != [] {
      if event.Own? && event.choice.Receive? {
        assert IsQueued(c.outbox, c.worker.queue[0], c.queued[0]);
      }
      assert Enabled(c.outbox, steps[0]) && steps[1..] == [];
    }
  }

  ghost function Next(c: System, event: Event, maxInFlight: nat): System
    requires Linked(c) && Allowed(c, event, maxInFlight)
  {
    StepsAreLegal(c, event, maxInFlight);
    System(After(c.outbox, StepsOf(c, event, maxInFlight)), WorkerAfter(c.worker, event, maxInFlight),
           QueuedAfter(c, event, maxInFlight), RunningAfter(c, event, maxInFlight))
  }

  lemma NextIs(c: System, event: Event, maxInFlight: nat)
    requires Linked(c) && Allowed(c, event, maxInFlight)
    ensures StepsOf(c, event, maxInFlight) == [] ==> Next(c, event, maxInFlight).outbox == c.outbox
    ensures forall step :: StepsOf(c, event, maxInFlight) == [step] ==>
      Enabled(c.outbox, step) && Next(c, event, maxInFlight).outbox == Apply(c.outbox, step)
  {
    StepsAreLegal(c, event, maxInFlight);
    forall step | StepsOf(c, event, maxInFlight) == [step]
      ensures Enabled(c.outbox, step) && Next(c, event, maxInFlight).outbox == Apply(c.outbox, step)
    {
      assert [step][0] == step && Enabled(c.outbox, step);
      OnlyStep(c.outbox, step);
    }
  }

  // A step that leaves a token alone leaves its holder alone.
  lemma OthersKeepHolder(s: State, step: Step, token: nat)
    requires Enabled(s, step) && token !in Uses(step)
    ensures token in Apply(s, step).holders <==> token in s.holders
    ensures token in s.holders ==> Apply(s, step).holders[token] == s.holders[token]
  {
  }

  lemma OthersKeepQueue(s: State, step: Step, tasks: seq<QueuedTask>, tokens: seq<nat>)
    requires Enabled(s, step) && QueueLinked(s, tasks, tokens)
    requires forall i :: 0 <= i < |tokens| ==> tokens[i] !in Uses(step)
    ensures QueueLinked(Apply(s, step), tasks, tokens)
  {
    forall i | 0 <= i < |tasks| ensures IsQueued(Apply(s, step), tasks[i], tokens[i]) {
      assert IsQueued(s, tasks[i], tokens[i]);
      OthersKeepHolder(s, step, tokens[i]);
    }
  }

  // A running task's own steps: it stays linked, or lets go.
  lemma OwnStepKeepsRunning(s: State, step: Step, task: QueuedTask, token: nat)
    requires Enabled(s, step) && IsRunning(s, task, token) && token in Uses(step)
    requires step.Execute? || step.Finish? || step.Drop?
    ensures IsRunning(Apply(s, step), task, token)
  {
  }

  lemma OthersKeepFlight(s: State, step: Step, tasks: seq<QueuedTask>, tokens: seq<nat>)
    requires Enabled(s, step) && FlightLinked(s, tasks, tokens)
    requires forall i :: 0 <= i < |tokens| && tokens[i] in Uses(step) ==> step.Execute? || step.Finish? || step.Drop?
    ensures FlightLinked(Apply(s, step), tasks, tokens)
  {
    forall i | 0 <= i < |tasks| ensures IsRunning(Apply(s, step), tasks[i], tokens[i]) {
      assert IsRunning(s, tasks[i], tokens[i]);
      if tokens[i] in Uses(step) {
        OwnStepKeepsRunning(s, step, tasks[i], tokens[i]);
      } else {
        OthersKeepHolder(s, step, tokens[i]);
      }
    }
  }

  lemma ArrivalStaysLinked(c: System, task: QueuedTask, token: nat, maxInFlight: nat)
    requires Linked(c) && Ready(c.worker, Arrive(task), maxInFlight) && MayArrive(c, task, token)
    ensures Linked(Next(c, Own(Arrive(task), token), maxInFlight))
  {
    NextIs(c, Own(Arrive(task), token), maxInFlight);
    if task.outboxId.Some? {
      OthersKeepQueue(c.outbox, Send(token), c.worker.queue, c.queued);
      OthersKeepFlight(c.outbox, Send(token), c.worker.inFlight, c.running);
    }
  }

  lemma ReceiptStaysLinked(c: System, token: nat, maxInFlight: nat)
    requires Linked(c) && Ready(c.worker, Receive, maxInFlight)
    ensures Linked(Next(c, Own(Receive, token), maxInFlight))
  {
    NextIs(c, Own(Receive, token), maxInFlight);
    if c.worker.queue != [] {
      HeadStarts(c, Next(c, Own(Receive, token), maxInFlight).outbox);
      QueueTail(c.outbox, c.worker.queue, c.queued);
    }
  }

  // The head's holder starts; with an in-memory task nothing happens.
  lemma HeadStarts(c: System, s: State)
    requires Linked(c) && c.worker.queue != []
    requires
      if c.worker.queue[0].outboxId.None? then s == c.outbox
      else Enabled(c.outbox, Start(c.queued[0])) && s == Apply(c.outbox, Start(c.queued[0]))
    ensures QueueLinked(s, c.worker.queue[1..], c.queued[1..])
    ensures FlightLinked(s, c.worker.inFlight + [c.worker.queue[0]], c.running + [c.queued[0]])
    ensures Apart(c.queued[1..], c.running + [c.queued[0]])
  {
    assert IsQueued(c.outbox, c.worker.queue[0], c.queued[0]);
    QueueTail(c.outbox, c.worker.queue, c.queued);
    if c.worker.queue[0].outboxId.Some? {
      OthersKeepQueue(c.outbox, Start(c.queued[0]), c.worker.queue[1..], c.queued[1..]);
      OthersKeepFlight(c.outbox, Start(c.queued[0]), c.worker.inFlight, c.running);
    }
    FlightGrows(s, c.worker.inFlight, c.running, c.worker.queue[0], c.queued[0]);
  }

  lemma FlightGrows(s: State, tasks: seq<QueuedTask>, tokens: seq<nat>, task: QueuedTask, token: nat)
    requires FlightLinked(s, tasks, tokens) && IsRunning(s, task, token) && token !in tokens
    ensures FlightLinked(s, tasks + [task], tokens + [token])
  {
  }

  lemma QueueTail(s: State, tasks: seq<QueuedTask>, tokens: seq<nat>)
    requires QueueLinked(s, tasks, tokens) && tasks != []
    ensures QueueLinked(s, tasks[1..], tokens[1..])
    ensures forall i :: 0 <= i < |tokens[1..]| ==> tokens[1..][i] != tokens[0]
  {
    forall i | 0 <= i < |tasks[1..]| ensures IsQueued(s, tasks[1..][i], tokens[1..][i]) {
      assert IsQueued(s, tasks[i + 1], tokens[i + 1]);
    }
  }

  lemma FlightWithout(s: State, tasks: seq<QueuedTask>, tokens: seq<nat>, index: nat)
    requires FlightLinked(s, tasks, tokens) && index < |tasks|
    ensures FlightLinked(s, Without(tasks, index), tokens[..index] + tokens[index + 1..])
  {
    var left, names := Without(tasks, index), tokens[..index] + tokens[index + 1..];
    forall i | 0 <= i < |left| ensures IsRunning(s, left[i], names[i]) {
      assert IsRunning(s, tasks[if i < index then i else i + 1], tokens[if i < index then i else i + 1]);
    }
  }

  lemma LettingGoStaysLinked(c: System, tokens: seq<nat>)
    requires Linked(c) && forall t :: t in tokens ==> t in c.running
    ensures
      var drop := Drop(HeldOf(c.outbox, tokens));
      && Enabled(c.outbox, drop)
      && Linked(c.(outbox := Apply(c.outbox, drop)))
  {
    var drop := Drop(HeldOf(c.outbox, tokens));
    OthersKeepQueue(c.outbox, drop, c.worker.queue, c.queued);
    OthersKeepFlight(c.outbox, drop, c.worker.inFlight, c.running);
  }

  lemma EndingStaysLinked(c: System, index: nat, token: nat, maxInFlight: nat)
    requires Linked(c) && Ready(c.worker, TaskDone(index), maxInFlight)
    ensures Linked(Next(c, Own(TaskDone(index), token), maxInFlight))
  {
    NextIs(c, Own(TaskDone(index), token), maxInFlight);
    LettingGoStaysLinked(c, [c.running[index]]);
    var dropped := Apply(c.outbox, Drop(HeldOf(c.outbox, [c.running[index]])));
    FlightWithout(dropped, c.worker.inFlight, c.running, index);
    ApartWithout(c.queued, c.running, index);
  }

  lemma ApartWithout(a: seq<nat>, b: seq<nat>, index: nat)
    requires Apart(a, b) && index < |b|
    ensures Apart(a, b[..index] + b[index + 1..])
  {
  }

  lemma AbortStaysLinked(c: System, token: nat, maxInFlight: nat)
    requires Linked(c) && Ready(c.worker, Abort, maxInFlight)
    ensures Linked(Next(c, Own(Abort, token), maxInFlight))
  {
    NextIs(c, Own(Abort, token), maxInFlight);
    LettingGoStaysLinked(c, c.running);
  }

  /** The link between channel, tasks in flight and holders survives every event. */
  lemma EventKeepsLink(c: System, event: Event, maxInFlight: nat)
    requires Linked(c) && Allowed(c, event, maxInFlight)
    ensures Linked(Next(c, event, maxInFlight))
  {
    NextIs(c, event, maxInFlight);
    match event {
      case Elsewhere(step) =>
        OthersKeepQueue(c.outbox, step, c.worker.queue, c.queued);
        OthersKeepFlight(c.outbox, step, c.worker.inFlight, c.running);
      case Own(choice, token) =>
        if Ready(c.worker, choice, maxInFlight) {
          match choice {
            case Arrive(task) => ArrivalStaysLinked(c, task, token, maxInFlight);
            case Receive => ReceiptStaysLinked(c, token, maxInFlight);
            case TaskDone(index) => EndingStaysLinked(c, index, token, maxInFlight);
            case Abort => AbortStaysLinked(c, token, maxInFlight);
            case _ =>
          }
        }
    }
  }

  // ---------------------------------------------------------------- whole runs

  ghost predicate AllowedRun(c: System, events: seq<Event>, maxInFlight: nat)
    requires Linked(c)
    decreases |events|
  {
    events != [] ==>
      && Allowed(c, events[0], maxInFlight)
      && (EventKeepsLink(c, events[0], maxInFlight);
          AllowedRun(Next(c, events[0], maxInFlight), events[1..], maxInFlight))
  }

  ghost function Final(c: System, events: seq<Event>, maxInFlight: nat): System
    requires Linked(c) && AllowedRun(c, events, maxInFlight)
    decreases |events|
  {
    if events == [] then c
    else
      EventKeepsLink(c, events[0], maxInFlight);
      Final(Next(c, events[0], maxInFlight), events[1..], maxInFlight)
  }

  ghost function ProtocolSteps(c: System, events: seq<Event>, maxInFlight: nat): seq<Step>
    requires Linked(c) && AllowedRun(c, events, maxInFlight)
    decreases |events|
  {
    if events == [] then []
    else
      EventKeepsLink(c, events[0], maxInFlight);
      StepsOf(c, events[0], maxInFlight)
      + ProtocolSteps(Next(c, events[0], maxInFlight), events[1..], maxInFlight)
  }

  // The worker's own choices among the events.
  function Choices(events: seq<Event>): seq<Choice> {
    if events == [] then []
    else (if events[0].Own? then [events[0].choice] else []) + Choices(events[1..])
  }

  lemma StepsThen(s: State, first: seq<Step>, rest: seq<Step>)
    requires |first| <= 1 && Legal(s, first) && Legal(After(s, first), rest)
    ensures Legal(s, first + rest) && After(s, first + rest) == After(After(s, first), rest)
  {
    if first == [] {
      assert first + rest == rest;
    } else {
      OnlyStep(s, first[0]);
      assert first == [first[0]];
      Prefixed(s, first[0], rest);
    }
  }

  /**
   * The worker with everything around it is a run of the outbox protocol, in which its
   * channel and its tasks stay linked to holders; and its own part is the loop's run.
   */
  lemma {:induction false} WorkerIsProtocolRun(c: System, events: seq<Event>, maxInFlight: nat)
    requires Linked(c) && AllowedRun(c, events, maxInFlight)
    ensures
      var end, steps := Final(c, events, maxInFlight), ProtocolSteps(c, events, maxInFlight);
      && Linked(end) && Legal(c.outbox, steps) && After(c.outbox, steps) == end.outbox
      && end.worker == Turns(c.worker, Choices(events), maxInFlight)
    decreases |events|
  {
    if events != [] {
      var next := Next(c, events[0], maxInFlight);
      EventKeepsLink(c, events[0], maxInFlight);
      WorkerIsProtocolRun(next, events[1..], maxInFlight);
      StepsAreLegal(c, events[0], maxInFlight);
      StepsThen(c.outbox, StepsOf(c, events[0], maxInFlight), ProtocolSteps(next, events[1..], maxInFlight));
      if events[0].Own? {
        TurnsCons(c.worker, events[0].choice, Choices(events[1..]), maxInFlight);
      } else {
        assert Choices(events) == Choices(events[1..]);
      }
    }
  }

  // ---------------------------------------------------------------- what is left behind

  // Everything the worker still holds: its channel's entries and its tasks' rows.
  ghost function Held(c: System): set<nat> {
    HeldOf(c.outbox, c.queued) + HeldOf(c.outbox, c.running)
  }

  // The outbox once the worker has gone away with all of that.
  ghost function Gone(c: System): State {
    Apply(c.outbox, Drop(Held(c)))
  }

  // Any run of worker and others in which holders let go in time.
  ghost predicate PunctualEvents(c: System, events: seq<Event>, maxInFlight: nat)
    requires Linked(c) && AllowedRun(c, events, maxInFlight)
  {
    WorkerIsProtocolRun(c, events, maxInFlight);
    PunctualRun(c.outbox, ProtocolSteps(c, events, maxInFlight))
  }

  // The row of a task that the worker still holds.
  lemma HeldTaskIsLost(c: System, task: QueuedTask, token: nat)
    requires Exclusive(c.outbox) && NothingLost(c.outbox)
    requires token in Held(c) && Owns(c.outbox.holders[token], task)
    ensures
      var id := c.outbox.holders[token].id;
      task.outboxId == Some(id) && Lost(Gone(c), id) && Gone(c).rows[id].payload == Encoded(task.command)
  {
    DroppedIsLost(c.outbox, Held(c), token);
    assert HolderKnown(c.outbox, c.outbox.holders[token]) && RowKnown(c.outbox, c.outbox.holders[token].id);
  }

  /**
   * Tasks left behind: after any run of worker and others in which holders let go in time,
   * the worker goes away. The row of each outbox task still in its channel is then Running
   * and nobody's; it stays exactly so until a reclaim finds it stale, and after the timeout
   * the next reclaim at the latest makes it due again, whatever the others do.
   */
  lemma TasksLeftComeBack(c: System, events: seq<Event>, maxInFlight: nat, i: nat, steps: seq<Step>, timeout: nat)
    requires Linked(c) && Exclusive(c.outbox) && NothingLost(c.outbox)
    requires AllowedRun(c, events, maxInFlight) && PunctualEvents(c, events, maxInFlight)
    requires
      var end := Final(c, events, maxInFlight);
      i < |end.worker.queue| && end.worker.queue[i].outboxId.Some? && Legal(Gone(end), steps)
    ensures
      var task, gone := Final(c, events, maxInFlight).worker.queue[i], Gone(Final(c, events, maxInFlight));
      var id := task.outboxId.value;
      && Lost(gone, id) && gone.rows[id].payload == Encoded(task.command)
      && ((Lost(After(gone, steps), id) && After(gone, steps).rows[id] == gone.rows[id])
          || exists k: nat :: ReclaimedAt(gone, steps, id, k))
      && (timeout != 0 && gone.rows[id].updatedAt + Interval(timeout) < After(gone, steps).now ==>
            ComesBack(gone, steps + [ReclaimStale(timeout)], id))
  {
    var end := Final(c, events, maxInFlight);
    WorkerIsProtocolRun(c, events, maxInFlight);
    ClaimsStayExclusive(c.outbox, ProtocolSteps(c, events, maxInFlight));
    AtLeastOnce(c.outbox, ProtocolSteps(c, events, maxInFlight));
    QueuedTaskIsHeld(end, i);
    var id := end.worker.queue[i].outboxId.value;
    HeldTaskIsLost(end, end.worker.queue[i], end.queued[i]);
    LostRowWaitsForReclaim(Gone(end), steps, id);
    if timeout != 0 && Gone(end).rows[id].updatedAt + Interval(timeout) < After(Gone(end), steps).now {
      LostRowComesBack(Gone(end), steps, id, timeout);
    }
  }

  lemma QueuedTaskIsHeld(c: System, i: nat)
    requires Linked(c) && i < |c.worker.queue| && c.worker.queue[i].outboxId.Some?
    ensures c.queued[i] in Held(c) && Owns(c.outbox.holders[c.queued[i]], c.worker.queue[i])
  {
    assert IsQueued(c.outbox, c.worker.queue[i], c.queued[i]);
  }

  /**
   * The same for the tasks that an abort cuts off before they have let go of their rows:
   * the rows are nobody's from that moment, and wait for a reclaim.
   */
  lemma AbortedTaskIsLost(c: System, index: nat, token: nat, maxInFlight: nat)
    requires Linked(c) && Exclusive(c.outbox) && Ready(c.worker, Abort, maxInFlight)
    requires index < |c.running| && c.running[index] in c.outbox.holders
    ensures
      var id := c.outbox.holders[c.running[index]].id;
      c.worker.inFlight[index].outboxId == Some(id) && Lost(Next(c, Own(Abort, token), maxInFlight).outbox, id)
  {
    assert IsRunning(c.outbox, c.worker.inFlight[index], c.running[index]);
    NextIs(c, Own(Abort, token), maxInFlight);
    DroppedIsLost(c.outbox, HeldOf(c.outbox, c.running), c.running[index]);
  }
}
