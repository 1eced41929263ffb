/**
 * The command worker of TaskManager: one loop around a select over the stop signal, the
 * command channel and the finished tasks. Which ready branch select takes is not
 * determined, so the loop is driven by a list of choices; between two turns senders may
 * add to the channel or all go away.
 */
module WorkerPool {
  import opened Dispatcher

  datatype Choice =
    | Arrive(task: QueuedTask)        // a sender with a reserved slot
    | SendersGone                     // the last sender is dropped
    | StopChanged(stop: bool)         // stop_rx.changed(): the new value, true also if the channel died
    | Receive                         // rx.recv()
    | TaskDone(index: nat)            // in_flight.join_next(), with any result
    | Abort                           // shutdown has waited 30 seconds and aborts the loop with its tasks

  // `received`, `completed` and `aborted` log the run; the loop does not read them.
  datatype Worker = Worker(
    queue: seq<QueuedTask>,
    sendersGone: bool,
    inFlight: seq<QueuedTask>,
    stopping: bool,
    ended: bool,
    received: seq<QueuedTask>,
    completed: seq<QueuedTask>,
    aborted: seq<QueuedTask>,
    arrived: seq<QueuedTask>)

  function Limit(maxInFlight: nat): nat {
    if maxInFlight < 1 then 1 else maxInFlight
  }

  // Which branches select may take. recv is ready only with a task there or no sender left.
  predicate Ready(w: Worker, choice: Choice, maxInFlight: nat) {
    match choice
    case Arrive(_) => !w.sendersGone
    case SendersGone => !w.sendersGone
    case StopChanged(_) => !w.ended && !w.stopping
    case Receive =>
      !w.ended && !w.stopping && |w.inFlight| < Limit(maxInFlight) && (w.queue != [] || w.sendersGone)
    case TaskDone(index) => !w.ended && index < |w.inFlight|
    case Abort => !w.ended
  }

  function Without(tasks: seq<QueuedTask>, index: nat): seq<QueuedTask>
    requires index < |tasks|
  {
    tasks[..index] + tasks[index + 1..]
  }

  // The end-of-turn test of the loop.
  function TestEnd(w: Worker): Worker {
    if w.stopping && w.inFlight == [] then w.(ended := true) else w
  }

  function Turn(w: Worker, choice: Choice, maxInFlight: nat): Worker {
    if !Ready(w, choice, maxInFlight) then w
    else match choice
      case Arrive(task) => w.(queue := w.queue + [task], arrived := w.arrived + [task])
      case SendersGone => w.(sendersGone := true)
      case StopChanged(stop) => TestEnd(if stop then w.(stopping := true) else w)
      case Receive =>
        if w.queue == [] then TestEnd(w.(stopping := true))
        else TestEnd(w.(
          queue := w.queue[1..],
          inFlight := w.inFlight + [w.queue[0]],
          received := w.received + [w.queue[0]]))
      case TaskDone(index) =>
        TestEnd(w.(inFlight := Without(w.inFlight, index), completed := w.completed + [w.inFlight[index]]))
      case Abort => w.(stopping := true, ended := true, inFlight := [], aborted := w.aborted + w.inFlight)
  }

  function Turns(w: Worker, choices: seq<Choice>, maxInFlight: nat): Worker
    decreases |choices|
  {
    if choices == [] then w else Turns(Turn(w, choices[0], maxInFlight), choices[1..], maxInFlight)
  }

  function FreshWorker(queue: seq<QueuedTask>): Worker {
    Worker(queue, false, [], false, false, [], [], [], queue)
  }

  /** The loop itself, keeping only what the source keeps: the set in flight and `stopping`. */
  class CommandWorker {
    const maxInFlight: nat
    var queue: seq<QueuedTask>
    var sendersGone: bool
    var inFlight: seq<QueuedTask>
    var stopping: bool
    var ended: bool
    ghost var received: seq<QueuedTask>
    ghost var completed: seq<QueuedTask>
    ghost var aborted: seq<QueuedTask>
    ghost var arrived: seq<QueuedTask>

    constructor (maxInFlight: nat, queue: seq<QueuedTask>)
      ensures Valid() && this.maxInFlight == Limit(maxInFlight) && View() == FreshWorker(queue)
    {
      this.maxInFlight := if maxInFlight < 1 then 1 else maxInFlight;
      this.queue, sendersGone, inFlight, stopping, ended := queue, false, [], false, false;
      received, completed, aborted, arrived := [], [], [], queue;
    }

    ghost function View(): Worker
      reads this
    {
      Worker(queue, sendersGone, inFlight, stopping, ended, received, completed, aborted, arrived)
    }

    ghost predicate Valid()
    {
      maxInFlight >= 1
    }

    method Run(choices: seq<Choice>)
      requires Valid()
      modifies this
      ensures View() == Turns(old(View()), choices, maxInFlight)
    {
      var i := 0;
      while i < |choices|
        invariant 0 <= i <= |choices|
        invariant Turns(View(), choices[i..], maxInFlight) == Turns(old(View()), choices, maxInFlight)
      {
        Select(choices[i]);
        assert choices[i..][1..] == choices[i + 1..];
        i := i + 1;
      }
    }

    method Select(choice: Choice)
      requires Valid()
      modifies this
      ensures View() == Turn(old(View()), choice, maxInFlight)
    {
      match choice {
        case Arrive(task) =>
          if !sendersGone {
            queue, arrived := queue + [task], arrived + [task];
          }
        case SendersGone =>
          sendersGone := true;
        case StopChanged(stop) =>
          if !ended && !stopping {
            if stop {
              stopping := true;
            }
            EndTurn();
          }
        case Receive =>
          if !ended && !stopping && |inFlight| < maxInFlight {
            if queue != [] {
              inFlight, received := inFlight + [queue[0]], received + [queue[0]];
              queue := queue[1..];
              EndTurn();
            } else if sendersGone {
              stopping := true;
              EndTurn();
            }
          }
        case TaskDone(index) =>
          if !ended && index < |inFlight| {
            completed := completed + [inFlight[index]];
            inFlight := inFlight[..index] + inFlight[index + 1..];
            EndTurn();
          }
        case Abort =>
          if !ended {
            aborted := aborted + inFlight;
            stopping, ended, inFlight := true, true, [];
          }
      }
    }

    method EndTurn()
      modifies this`ended
      ensures ended == (old(ended) || (stopping && inFlight == []))
    {
      if stopping && inFlight == [] {
        ended := true;
      }
    }
  }

  // ---------------------------------------------------------------- what every run keeps

  ghost predicate Sound(w: Worker, maxInFlight: nat) {
    && |w.inFlight| <= Limit(maxInFlight)
    && w.received + w.queue == w.arrived
    && multiset(w.received) == multiset(w.completed) + multiset(w.aborted) + multiset(w.inFlight)
    && (w.ended <==> w.stopping && w.inFlight == [])
  }

  lemma TurnKeepsSound(w: Worker, choice: Choice, maxInFlight: nat)
    requires Sound(w, maxInFlight)
    ensures Sound(Turn(w, choice, maxInFlight), maxInFlight)
  {
    match choice
    case Receive => ReceiveKeepsSound(w, maxInFlight);
    case TaskDone(index) => DoneKeepsSound(w, index, maxInFlight);
    case Arrive(task) => assert w.received + (w.queue + [task]) == (w.received + w.queue) + [task];
    case _ =>
  }

  lemma ReceiveKeepsSound(w: Worker, maxInFlight: nat)
    requires Sound(w, maxInFlight)
    ensures Sound(Turn(w, Receive, maxInFlight), maxInFlight)
  {
    if w.queue != [] {
      assert w.received + [w.queue[0]] + w.queue[1..] == w.received + w.queue;
    }
  }

  lemma DoneKeepsSound(w: Worker, index: nat, maxInFlight: nat)
    requires Sound(w, maxInFlight)
    ensures Sound(Turn(w, TaskDone(index), maxInFlight), maxInFlight)
  {
    if Ready(w, TaskDone(index), maxInFlight) {
      WithoutOne(w.inFlight, index);
    }
  }

  lemma WithoutOne(tasks: seq<QueuedTask>, index: nat)
    requires index < |tasks|
    ensures multiset(tasks) == multiset(Without(tasks, index)) + multiset{tasks[index]}
  {
    assert tasks == tasks[..index] + [tasks[index]] + tasks[index + 1..];
  }

  /**
   * In every run at most max(1, maxInFlight) tasks are in flight, the tasks received are
   * exactly those completed, aborted or in flight, the channel is served in order, and the
   * loop has ended precisely when it is stopping with nothing in flight.
   */
  lemma {:induction false} RunsStaySound(w: Worker, choices: seq<Choice>, maxInFlight: nat)
    requires Sound(w, maxInFlight)
    ensures Sound(Turns(w, choices, maxInFlight), maxInFlight)
    decreases |choices|
  {
    if choices != [] {
      TurnKeepsSound(w, choices[0], maxInFlight);
      RunsStaySound(Turn(w, choices[0], maxInFlight), choices[1..], maxInFlight);
    }
  }

  lemma FreshWorkerRuns(queue: seq<QueuedTask>, choices: seq<Choice>, maxInFlight: nat)
    ensures
      var w := Turns(FreshWorker(queue), choices, maxInFlight);
      && (|w.inFlight| <= maxInFlight || |w.inFlight| <= 1)
      && |w.received| == |w.completed| + |w.aborted| + |w.inFlight|
      && w.received <= w.arrived
  {
    RunsStaySound(FreshWorker(queue), choices, maxInFlight);
    var w := Turns(FreshWorker(queue), choices, maxInFlight);
    assert |multiset(w.received)| == |w.received|;
    assert |multiset(w.completed) + multiset(w.aborted) + multiset(w.inFlight)| ==
      |w.completed| + |w.aborted| + |w.inFlight|;
  }

  /**
   * Once stopping, nothing more is received: the run only finishes what is in flight, and
   * the channel keeps every task it had, in order, behind nothing.
   */
  lemma {:induction false} NothingReceivedAfterStop(w: Worker, choices: seq<Choice>, maxInFlight: nat)
    requires w.stopping
    ensures
      var w' := Turns(w, choices, maxInFlight);
      w'.stopping && w'.received == w.received && w.queue <= w'.queue && |w'.inFlight| <= |w.inFlight|
    decreases |choices|
  {
    if choices != [] {
      NothingReceivedAfterStop(Turn(w, choices[0], maxInFlight), choices[1..], maxInFlight);
    }
  }

  /** The bound is reached: below it a worker that is not stopping takes the next task there is. */
  lemma ReceivesBelowBound(w: Worker, maxInFlight: nat)
    requires !w.ended && !w.stopping && w.queue != [] && (|w.inFlight| < maxInFlight || w.inFlight == [])
    ensures
      var w' := Turn(w, Receive, maxInFlight);
      && w'.received == w.received + [w.queue[0]] && w'.inFlight == w.inFlight + [w.queue[0]]
      && w'.queue == w.queue[1..] && !w'.stopping && !w'.ended
  {
  }

  /** What makes a worker stop: the signal, a channel that is empty with no sender left, or the abort. */
  lemma StopsIff(w: Worker, choice: Choice, maxInFlight: nat)
    requires !w.stopping && !w.ended
    ensures Turn(w, choice, maxInFlight).stopping <==>
      || choice == StopChanged(true) || choice == Abort
      || (choice == Receive && w.queue == [] && w.sendersGone && (|w.inFlight| < maxInFlight || w.inFlight == []))
  {
  }

  // The guards of the three branches of select.
  predicate StopGuard(w: Worker) {
    !w.stopping
  }

  predicate ReceiveGuard(w: Worker, maxInFlight: nat) {
    !w.stopping && |w.inFlight| < Limit(maxInFlight)
  }

  predicate JoinGuard(w: Worker) {
    w.inFlight != []
  }

  /**
   * select runs its else arm only when no guard holds. While the loop runs one always
   * does, so the break in that arm is dead and the loop ends by its end-of-turn test
   * alone, or by being aborted.
   */
  lemma {:induction false} ElseArmIsNeverTaken(queue: seq<QueuedTask>, choices: seq<Choice>, maxInFlight: nat)
    ensures
      var w := Turns(FreshWorker(queue), choices, maxInFlight);
      !w.ended ==> StopGuard(w) || ReceiveGuard(w, maxInFlight) || JoinGuard(w)
  {
    RunsStaySound(FreshWorker(queue), choices, maxInFlight);
  }

  function Dones(n: nat): seq<Choice> {
    if n == 0 then [] else [TaskDone(0)] + Dones(n - 1)
  }

  lemma {:induction false} StoppingEnds(w: Worker, maxInFlight: nat)
    requires Sound(w, maxInFlight) && w.stopping
    ensures
      var w' := Turns(w, Dones(|w.inFlight|), maxInFlight);
      w'.ended && w'.queue == w.queue && w'.received == w.received && w'.aborted == w.aborted
    decreases |w.inFlight|
  {
    if w.inFlight != [] {
      var next := Turn(w, TaskDone(0), maxInFlight);
      DoneStep(w, maxInFlight);
      TurnsCons(w, TaskDone(0), Dones(|next.inFlight|), maxInFlight);
      StoppingEnds(next, maxInFlight);
    }
  }

  /**
   * Shutdown ends the loop either way: once told to stop, the worker has ended after its
   * tasks are done, and an abort ends it at once. Then every task received was completed
   * or aborted, and what is left in the channel was never received.
   */
  lemma ShutdownEnds(w: Worker, maxInFlight: nat)
    requires Sound(w, maxInFlight) && !w.ended
    ensures
      var stopped := Turn(w, StopChanged(true), maxInFlight);
      var done := Turns(stopped, Dones(|stopped.inFlight|), maxInFlight);
      var aborted := Turn(stopped, Abort, maxInFlight);
      && done.ended && multiset(done.received) == multiset(done.completed) + multiset(done.aborted)
      && done.received == w.received && done.queue == w.queue && done.aborted == w.aborted
      && aborted.ended && multiset(aborted.received) == multiset(aborted.completed) + multiset(aborted.aborted)
      && aborted.received == w.received && aborted.queue == w.queue && aborted.completed == w.completed
  {
    var stopped := Turn(w, StopChanged(true), maxInFlight);
    TurnKeepsSound(w, StopChanged(true), maxInFlight);
    TurnKeepsSound(stopped, Abort, maxInFlight);
    StoppingEnds(stopped, maxInFlight);
    RunsStaySound(stopped, Dones(|stopped.inFlight|), maxInFlight);
  }

  lemma DoneStep(w: Worker, maxInFlight: nat)
    requires Sound(w, maxInFlight) && w.stopping && w.inFlight != []
    ensures
      var next := Turn(w, TaskDone(0), maxInFlight);
      && Sound(next, maxInFlight) && next.stopping && |next.inFlight| == |w.inFlight| - 1
      && next.queue == w.queue && next.received == w.received && next.aborted == w.aborted
  {
    TurnKeepsSound(w, TaskDone(0), maxInFlight);
  }

  lemma TurnsCons(w: Worker, choice: Choice, rest: seq<Choice>, maxInFlight: nat)
    ensures Turns(w, [choice] + rest, maxInFlight) == Turns(Turn(w, choice, maxInFlight), rest, maxInFlight)
  {
    assert ([choice] + rest)[1..] == rest;
  }
}
