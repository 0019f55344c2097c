/** The daemon-thread worker pool, as the steps its threads interleave.

    A submission checks for shutdown under the lock, puts its item, looks under the lock whether a thread is needed,
    and starts the one it created. A worker marks itself idle, waits for an item, unmarks itself, and runs it. Shutdown
    sets the flag and then drains the queue, one item at a time.
 */
module ThreadPool {
  import opened Common

  datatype Submission = Checked | PutDone | ToStart(thread: nat) | Returned

  datatype Place = Nowhere | InQueue | Taken(thread: nat) | Finished | Dropped

  /** `late`: put after the drain had found the queue empty. */
  datatype Item = Item(submission: Submission, place: Place, late: bool)

  datatype Thread =
    | Created(item: nat) | Top | Waits | SawEmpty | Looks
    | Got(item: nat) | Popped(item: nat) | Runs(item: nat) | Exited

  datatype Phase = Open | Draining | Drained

  datatype State = State(
    maxWorkers: nat, capacity: nat, queue: seq<nat>, items: seq<Item>, threads: seq<Thread>, idle: int, phase: Phase)

  // ---------------------------------------------------------------- the code

  function Submit(s: State): State {
    if s.phase != Open then s else s.(items := s.items + [Item(Checked, Nowhere, false)])
  }

  function Put(s: State, i: nat): State
    requires i < |s.items|
  {
    s.(queue := s.queue + [i], items := s.items[i := Item(PutDone, InQueue, s.phase == Drained)])
  }

  function Adjust(s: State, i: nat): State
    requires i < |s.items|
  {
    if s.idle > 0 || s.maxWorkers - |s.threads| <= 0 || s.phase != Open then
      s.(items := s.items[i := s.items[i].(submission := Returned)])
    else
      s.(items := s.items[i := s.items[i].(submission := ToStart(|s.threads|))], threads := s.threads + [Created(i)])
  }

  function SetThread(s: State, t: nat, to: Thread): State
    requires t < |s.threads|
  {
    s.(threads := s.threads[t := to])
  }

  function StartThread(s: State, i: nat, t: nat): State
    requires i < |s.items| && t < |s.threads|
  {
    SetThread(s, t, Top).(items := s.items[i := s.items[i].(submission := Returned)])
  }

  function MarkIdle(s: State, t: nat): State
    requires t < |s.threads|
  {
    SetThread(s, t, Waits).(idle := s.idle + 1)
  }

  function Get(s: State, t: nat): State
    requires t < |s.threads| && s.queue != [] && s.queue[0] < |s.items|
  {
    SetThread(s, t, Got(s.queue[0])).(queue := s.queue[1..],
                                      items := s.items[s.queue[0] := s.items[s.queue[0]].(place := Taken(t))])
  }

  function Unmark(s: State, t: nat): State
    requires t < |s.threads|
  {
    SetThread(s, t, if s.threads[t].Got? then Popped(s.threads[t].item) else Looks).(idle := s.idle - 1)
  }

  function Look(s: State, t: nat): State
    requires t < |s.threads|
  {
    SetThread(s, t, if s.phase != Open then Exited else Top)
  }

  function Finish(s: State, t: nat, i: nat): State
    requires t < |s.threads| && i < |s.items|
  {
    SetThread(s, t, Top).(items := s.items[i := s.items[i].(place := Finished)])
  }

  function DrainOne(s: State): State
    requires s.queue != [] && s.queue[0] < |s.items|
  {
    s.(queue := s.queue[1..], items := s.items[s.queue[0] := s.items[s.queue[0]].(place := Dropped)])
  }

  // ---------------------------------------------------------------- the machine

  datatype Step =
    | Submits | Puts(i: nat) | Adjusts(i: nat) | Starts(i: nat)
    | Marks(t: nat) | Gets(t: nat) | TimesOut(t: nat) | Unmarks(t: nat)
    | LooksAround(t: nat) | Begins(t: nat) | Finishes(t: nat)
    | Shuts | Drains | DrainEnds

  predicate Enabled(s: State, step: Step) {
    match step
    case Submits => true
    case Puts(i) => i < |s.items| && s.items[i].submission == Checked && (s.capacity == 0 || |s.queue| < s.capacity)
    case Adjusts(i) => i < |s.items| && s.items[i].submission == PutDone
    case Starts(i) => i < |s.items| && s.items[i].submission.ToStart? && s.items[i].submission.thread < |s.threads|
    case Marks(t) => t < |s.threads| && s.threads[t] == Top
    case Gets(t) => t < |s.threads| && s.threads[t] == Waits && s.queue != [] && s.queue[0] < |s.items|
    case TimesOut(t) => t < |s.threads| && s.threads[t] == Waits && s.queue == []
    case Unmarks(t) => t < |s.threads| && (s.threads[t] == SawEmpty || s.threads[t].Got?)
    case LooksAround(t) => t < |s.threads| && s.threads[t] == Looks
    case Begins(t) => t < |s.threads| && s.threads[t].Popped?
    case Finishes(t) => t < |s.threads| && s.threads[t].Runs? && s.threads[t].item < |s.items|
    case Shuts => true
    case Drains => s.phase == Draining && s.queue != [] && s.queue[0] < |s.items|
    case DrainEnds => s.phase == Draining && s.queue == []
  }

  function Apply(s: State, step: Step): State
    requires Enabled(s, step)
  {
    match step
    case Submits => Submit(s)
    case Puts(i) => Put(s, i)
    case Adjusts(i) => Adjust(s, i)
    case Starts(i) => StartThread(s, i, s.items[i].submission.thread)
    case Marks(t) => MarkIdle(s, t)
    case Gets(t) => Get(s, t)
    case TimesOut(t) => SetThread(s, t, SawEmpty)
    case Unmarks(t) => Unmark(s, t)
    case LooksAround(t) => Look(s, t)
    case Begins(t) => SetThread(s, t, Runs(s.threads[t].item))
    case Finishes(t) => Finish(s, t, s.threads[t].item)
    case Shuts => if s.phase == Open then s.(phase := Draining) else s
    case Drains => DrainOne(s)
    case DrainEnds => s.(phase := Drained)
  }

  // ---------------------------------------------------------------- what every step keeps

  predicate CountedIdle(t: Thread) { t == Waits || t == SawEmpty || t.Got? }

  function IdleThreads(ts: seq<Thread>): nat {
    if ts == [] then 0 else IdleThreads(ts[..|ts| - 1]) + if CountedIdle(ts[|ts| - 1]) then 1 else 0
  }

  lemma {:induction false} IdleUpdate(ts: seq<Thread>, t: nat, to: Thread)
    requires t < |ts|
    ensures IdleThreads(ts[t := to]) ==
            IdleThreads(ts) - (if CountedIdle(ts[t]) then 1 else 0) + if CountedIdle(to) then 1 else 0
  {
    var n := |ts| - 1;
    assert ts[t := to][..n] == if t < n then ts[..n][t := to] else ts[..n];
    if t < n { IdleUpdate(ts[..n], t, to); }
  }

  lemma IdleSnoc(ts: seq<Thread>, t: Thread)
    ensures IdleThreads(ts + [t]) == IdleThreads(ts) + if CountedIdle(t) then 1 else 0
  {
    assert (ts + [t])[..|ts|] == ts;
  }

  predicate Holds(t: Thread, i: nat) { (t.Got? || t.Popped? || t.Runs?) && t.item == i }

  /** An item is where its place says, and nowhere else. */
  ghost predicate ItemOk(s: State, i: nat)
    requires i < |s.items|
  {
    var it := s.items[i];
    && (it.submission == Checked <==> it.place == Nowhere)
    && (it.place == InQueue <==> i in s.queue)
    && (it.place.Taken? ==> it.place.thread < |s.threads| && Holds(s.threads[it.place.thread], i))
    && (it.submission.ToStart? ==> it.submission.thread < |s.threads| && s.threads[it.submission.thread] == Created(i))
    && (s.phase == Open && (it.submission.ToStart? || it.submission.Returned?) ==> s.threads != [])
    && (s.phase == Drained && it.place == InQueue ==> it.late)
  }

  ghost predicate ThreadOk(s: State, t: nat)
    requires t < |s.threads|
  {
    var th := s.threads[t];
    && (th.Got? || th.Popped? || th.Runs? ==> th.item < |s.items| && s.items[th.item].place == Taken(t))
    && (th.Created? ==> th.item < |s.items| && s.items[th.item].submission == ToStart(t))
    && (s.phase == Open ==> th != Exited)
  }

  ghost predicate QueueOk(s: State) {
    && (forall k :: 0 <= k < |s.queue| ==> s.queue[k] < |s.items|)
    && (forall j, k :: 0 <= j < k < |s.queue| ==> s.queue[j] != s.queue[k])
    && (s.capacity != 0 ==> |s.queue| <= s.capacity)
  }

  ghost predicate Inv(s: State) {
    && s.maxWorkers >= 1 && |s.threads| <= s.maxWorkers && s.idle == IdleThreads(s.threads)
    && QueueOk(s)
    && (forall i :: 0 <= i < |s.items| ==> ItemOk(s, i))
    && (forall t :: 0 <= t < |s.threads| ==> ThreadOk(s, t))
  }

  lemma SubmitKeeps(s: State)
    requires Inv(s)
    ensures Inv(Submit(s))
  {
    var s2 := Submit(s);
    forall i | 0 <= i < |s2.items| ensures ItemOk(s2, i) { if i < |s.items| { assert ItemOk(s, i); } }
    forall t | 0 <= t < |s2.threads| ensures ThreadOk(s2, t) { assert ThreadOk(s, t); }
  }

  lemma PutKeeps(s: State, i: nat)
    requires Inv(s) && Enabled(s, Puts(i))
    ensures Inv(Put(s, i))
  {
    var s2 := Put(s, i);
    assert ItemOk(s, i);
    forall k | 0 <= k < |s2.items| ensures ItemOk(s2, k) { assert ItemOk(s, k); }
    forall t | 0 <= t < |s2.threads| ensures ThreadOk(s2, t) { assert ThreadOk(s, t); }
  }

  lemma AdjustKeeps(s: State, i: nat)
    requires Inv(s) && Enabled(s, Adjusts(i))
    ensures Inv(Adjust(s, i))
  {
    var s2 := Adjust(s, i);
    IdleSnoc(s.threads, Created(i));
    if s.idle > 0 { IdleMeansThread(s.threads); }
    forall k | 0 <= k < |s2.items| ensures ItemOk(s2, k) { assert ItemOk(s, k); }
    forall t | 0 <= t < |s2.threads| ensures ThreadOk(s2, t) { if t < |s.threads| { assert ThreadOk(s, t); } }
  }

  lemma IdleMeansThread(ts: seq<Thread>)
    ensures IdleThreads(ts) > 0 ==> ts != []
  {
  }

  lemma StartKeeps(s: State, i: nat)
    requires Inv(s) && Enabled(s, Starts(i))
    ensures Inv(StartThread(s, i, s.items[i].submission.thread))
  {
    var t := s.items[i].submission.thread;
    var s2 := StartThread(s, i, t);
    assert ItemOk(s, i);
    IdleUpdate(s.threads, t, Top);
    forall k | 0 <= k < |s2.items| ensures ItemOk(s2, k) { assert ItemOk(s, k); }
    forall k | 0 <= k < |s2.threads| ensures ThreadOk(s2, k) { assert ThreadOk(s, k); }
  }

  /** A worker moves on without touching an item. */
  lemma MoveKeeps(s: State, t: nat, to: Thread, idle: int)
    requires Inv(s) && t < |s.threads| && !s.threads[t].Created? && !to.Created?
    requires forall i :: Holds(to, i) <==> Holds(s.threads[t], i)
    requires idle == s.idle - (if CountedIdle(s.threads[t]) then 1 else 0) + if CountedIdle(to) then 1 else 0
    requires to == Exited ==> s.phase != Open
    ensures Inv(SetThread(s, t, to).(idle := idle))
  {
    var s2 := SetThread(s, t, to).(idle := idle);
    IdleUpdate(s.threads, t, to);
    assert ThreadOk(s, t);
    assert to.Got? || to.Popped? || to.Runs? ==> Holds(to, to.item);
    forall k | 0 <= k < |s2.items| ensures ItemOk(s2, k) { assert ItemOk(s, k); }
    forall k | 0 <= k < |s2.threads| ensures ThreadOk(s2, k) { assert ThreadOk(s, k); }
  }

  lemma TailMembers(q: seq<nat>)
    requires q != [] && forall j, k :: 0 <= j < k < |q| ==> q[j] != q[k]
    ensures q[0] !in q[1..] && forall x :: x in q <==> x == q[0] || x in q[1..]
  {
  }

  lemma GetKeeps(s: State, t: nat)
    requires Inv(s) && Enabled(s, Gets(t))
    ensures Inv(Get(s, t))
  {
    var s2 := Get(s, t);
    TailMembers(s.queue);
    assert ItemOk(s, s.queue[0]);
    IdleUpdate(s.threads, t, Got(s.queue[0]));
    forall k | 0 <= k < |s2.items| ensures ItemOk(s2, k) { assert ItemOk(s, k); }
    forall k | 0 <= k < |s2.threads| ensures ThreadOk(s2, k) { assert ThreadOk(s, k); }
  }

  lemma FinishKeeps(s: State, t: nat)
    requires Inv(s) && Enabled(s, Finishes(t))
    ensures Inv(Finish(s, t, s.threads[t].item))
  {
    var s2 := Finish(s, t, s.threads[t].item);
    assert ThreadOk(s, t);
    IdleUpdate(s.threads, t, Top);
    forall k | 0 <= k < |s2.items| ensures ItemOk(s2, k) { assert ItemOk(s, k); }
    forall k | 0 <= k < |s2.threads| ensures ThreadOk(s2, k) { assert ThreadOk(s, k); }
  }

  lemma DrainKeeps(s: State)
    requires Inv(s) && Enabled(s, Drains)
    ensures Inv(DrainOne(s))
  {
    var s2 := DrainOne(s);
    TailMembers(s.queue);
    assert ItemOk(s, s.queue[0]);
    forall k | 0 <= k < |s2.items| ensures ItemOk(s2, k) { assert ItemOk(s, k); }
    forall k | 0 <= k < |s2.threads| ensures ThreadOk(s2, k) { assert ThreadOk(s, k); }
  }

  lemma PhaseKeeps(s: State, phase: Phase)
    requires Inv(s) && phase != Open && (phase == Drained ==> s.queue == [])
    ensures Inv(s.(phase := phase))
  {
    var s2 := s.(phase := phase);
    forall k | 0 <= k < |s2.items| ensures ItemOk(s2, k) { assert ItemOk(s, k); }
    forall k | 0 <= k < |s2.threads| ensures ThreadOk(s2, k) { assert ThreadOk(s, k); }
  }

  function Next(s: State, step: Step): State { if Enabled(s, step) then Apply(s, step) else s }

  lemma StepKeeps(s: State, step: Step)
    requires Inv(s)
    ensures Inv(Next(s, step)) && Next(s, step).maxWorkers == s.maxWorkers
  {
    if Enabled(s, step) {
      match step
      case Submits => SubmitKeeps(s);
      case Puts(i) => PutKeeps(s, i);
      case Adjusts(i) => AdjustKeeps(s, i);
      case Starts(i) => StartKeeps(s, i);
      case Marks(t) => MoveKeeps(s, t, Waits, s.idle + 1);
      case Gets(t) => GetKeeps(s, t);
      case TimesOut(t) => MoveKeeps(s, t, SawEmpty, s.idle);
      case Unmarks(t) => MoveKeeps(s, t, if s.threads[t].Got? then Popped(s.threads[t].item) else Looks, s.idle - 1);
      case LooksAround(t) => MoveKeeps(s, t, if s.phase != Open then Exited else Top, s.idle);
      case Begins(t) => MoveKeeps(s, t, Runs(s.threads[t].item), s.idle);
      case Finishes(t) => FinishKeeps(s, t);
      case Shuts => if s.phase == Open { PhaseKeeps(s, Draining); }
      case Drains => DrainKeeps(s);
      case DrainEnds => PhaseKeeps(s, Drained);
    }
  }

  // ---------------------------------------------------------------- whole runs

  function Start(maxWorkers: nat, capacity: nat): State { State(maxWorkers, capacity, [], [], [], 0, Open) }

  function Ran(maxWorkers: nat, capacity: nat, steps: seq<Step>): State {
    Reached(Next, Start(maxWorkers, capacity), steps)
  }

  lemma RunKeeps(from: State, steps: seq<Step>)
    requires Inv(from)
    ensures Inv(Reached(Next, from, steps)) && Reached(Next, from, steps).maxWorkers == from.maxWorkers
  {
    var inv := (s: State) => Inv(s) && s.maxWorkers == from.maxWorkers;
    forall s, step | inv(s) ensures inv(Next(s, step)) { StepKeeps(s, step); }
    ReachedKeeps(Next, inv, from, steps);
  }

  lemma Reachable(maxWorkers: nat, capacity: nat, steps: seq<Step>)
    requires maxWorkers >= 1
    ensures Inv(Ran(maxWorkers, capacity, steps)) && Ran(maxWorkers, capacity, steps).maxWorkers == maxWorkers
  {
    assert Inv(Start(maxWorkers, capacity));
    RunKeeps(Start(maxWorkers, capacity), steps);
  }

  /** Never more threads than allowed, and the idle count is exactly the workers in the waiting section. */
  lemma ThreadsAreCounted(maxWorkers: nat, capacity: nat, steps: seq<Step>)
    requires maxWorkers >= 1
    ensures var s := Ran(maxWorkers, capacity, steps); |s.threads| <= maxWorkers && s.idle == IdleThreads(s.threads)
  {
    Reachable(maxWorkers, capacity, steps);
  }

  /** The item is in the queue, at one place. */
  ghost predicate QueuedOnce(s: State, i: nat) {
    exists k :: 0 <= k < |s.queue| && s.queue[k] == i && i !in s.queue[..k] && i !in s.queue[k + 1..]
  }

  /** Every item that was put is in the queue, once, or with one worker, or resolved; never two of these. */
  lemma ItemsAreOwnedOnce(maxWorkers: nat, capacity: nat, steps: seq<Step>, i: nat)
    requires maxWorkers >= 1
    ensures var s := Ran(maxWorkers, capacity, steps);
            i < |s.items| && s.items[i].submission != Checked ==>
              && s.items[i].place != Nowhere && (s.items[i].place == InQueue <==> QueuedOnce(s, i))
              && forall t :: 0 <= t < |s.threads| ==> (Holds(s.threads[t], i) <==> s.items[i].place == Taken(t))
  {
    Reachable(maxWorkers, capacity, steps);
    var s := Ran(maxWorkers, capacity, steps);
    if i < |s.items| && s.items[i].submission != Checked { OwnedOnce(s, i); }
  }

  lemma OwnedOnce(s: State, i: nat)
    requires Inv(s) && i < |s.items| && s.items[i].submission != Checked
    ensures s.items[i].place != Nowhere && (s.items[i].place == InQueue <==> QueuedOnce(s, i))
    ensures forall t :: 0 <= t < |s.threads| ==> (Holds(s.threads[t], i) <==> s.items[i].place == Taken(t))
  {
    assert ItemOk(s, i);
    forall t | 0 <= t < |s.threads| ensures Holds(s.threads[t], i) <==> s.items[i].place == Taken(t) {
      assert ThreadOk(s, t);
    }
    if s.items[i].place == InQueue {
      var k :| 0 <= k < |s.queue| && s.queue[k] == i;
      assert i !in s.queue[..k] && i !in s.queue[k + 1..];
    }
  }

  /** Where an item goes at this step, if anywhere: into the queue, to the worker that takes it, to its end when that
      worker finishes it, or out of the queue when the drain drops it. */
  function Goes(s: State, step: Step, i: nat): Option<Place> {
    match step
    case Puts(k) => if k == i then Some(InQueue) else None
    case Gets(t) => if s.queue != [] && s.queue[0] == i then Some(Taken(t)) else None
    case Finishes(t) => if t < |s.threads| && s.threads[t] == Runs(i) then Some(Finished) else None
    case Drains => if s.queue != [] && s.queue[0] == i then Some(Dropped) else None
    case _ => None
  }

  /** An item moves only so: it is run by the worker that took it, exactly once, or dropped by the drain, from the head
      of the queue. */
  lemma ItemMoves(s: State, step: Step, i: nat)
    requires Enabled(s, step) && i < |s.items|
    ensures i < |Apply(s, step).items|
    ensures Apply(s, step).items[i].place == if Goes(s, step, i).Some? then Goes(s, step, i).value else s.items[i].place
  {
  }

  /** A worker takes the oldest item, keeps it through its run, and is free again only afterwards. */
  lemma WorkerMoves(s: State, step: Step, t: nat)
    requires Inv(s) && Enabled(s, step) && t < |s.threads|
    ensures t < |Apply(s, step).threads|
    ensures Apply(s, step).threads[t] ==
            match step
            case Starts(i) => if s.items[i].submission.thread == t then Top else s.threads[t]
            case Marks(k) => if k == t then Waits else s.threads[t]
            case Gets(k) => if k == t then Got(s.queue[0]) else s.threads[t]
            case TimesOut(k) => if k == t then SawEmpty else s.threads[t]
            case Unmarks(k) =>
              if k != t then s.threads[t] else if s.threads[t].Got? then Popped(s.threads[t].item) else Looks
            case LooksAround(k) => if k != t then s.threads[t] else if s.phase == Open then Top else Exited
            case Begins(k) => if k == t then Runs(s.threads[t].item) else s.threads[t]
            case Finishes(k) => if k == t then Top else s.threads[t]
            case _ => s.threads[t]
  {
  }

  /** A submission goes through its put and its look, and returns, after starting a thread exactly if nobody was idle,
      the pool had room for one and was open. */
  lemma SubmissionMoves(s: State, step: Step, i: nat)
    requires Enabled(s, step) && i < |s.items|
    ensures i < |Apply(s, step).items|
    ensures Apply(s, step).items[i].submission ==
            match step
            case Puts(k) => if k == i then PutDone else s.items[i].submission
            case Adjusts(k) =>
              if k != i then s.items[i].submission
              else if s.idle <= 0 && |s.threads| < s.maxWorkers && s.phase == Open then ToStart(|s.threads|)
              else Returned
            case Starts(k) => if k == i then Returned else s.items[i].submission
            case _ => s.items[i].submission
  {
  }

  /** Nobody is stuck: a worker that waits gets an item if there is one and finds nothing if there is none, every other
      worker that has not left can go on, a submission waits only for room in the queue, and the drain for nobody. */
  lemma NobodyIsStuck(s: State, t: nat, i: nat)
    requires Inv(s) && t < |s.threads| && i < |s.items|
    ensures match s.threads[t]
            case Waits => (Enabled(s, Gets(t)) <==> s.queue != []) && (Enabled(s, TimesOut(t)) <==> s.queue == [])
            case Created(k) => Enabled(s, Starts(k)) && Next(s, Starts(k)).threads[t] == Top
            case Exited => true
            case _ => Next(s, Leaving(s.threads[t], t)).threads[t] != s.threads[t]
    ensures match s.items[i].submission
            case Checked => Enabled(s, Puts(i)) <==> s.capacity == 0 || |s.queue| < s.capacity
            case PutDone => Enabled(s, Adjusts(i))
            case ToStart(_) => Enabled(s, Starts(i))
            case Returned => true
    ensures s.phase == Draining ==> Enabled(s, if s.queue == [] then DrainEnds else Drains)
    ensures Enabled(s, Submits) && Next(s, Shuts).phase != Open
  {
    assert ThreadOk(s, t) && ItemOk(s, i);
  }

  lemma QueueMoves(s: State, step: Step)
    ensures Moves(s.queue, Next(s, step).queue)
  {
  }

  /** First in, first out: what is queued later is what is left of the queue, in its order, and what came in since. */
  lemma {:induction false} QueueIsFifo(from: State, steps: seq<Step>) returns (taken: nat)
    ensures taken <= |from.queue| && from.queue[taken..] <= Reached(Next, from, steps).queue
    decreases |steps|
  {
    if steps == [] {
      taken := 0;
    } else {
      taken := QueueIsFifo(from, Prefix(steps));
      QueueMoves(Reached(Next, from, Prefix(steps)), Final(steps));
      taken := MovesOn(from.queue, taken, Reached(Next, from, Prefix(steps)).queue, Reached(Next, from, steps).queue);
    }
  }

  /** A worker that runs, or one whose submission is about to start it. */
  ghost predicate HasWorker(s: State) {
    exists t :: && 0 <= t < |s.threads| && s.threads[t] != Exited
                && (s.threads[t].Created? ==> Enabled(s, Starts(s.threads[t].item)))
  }

  /** Before shutdown, a queue with items in it and no submission between its put and its look has a worker. */
  lemma NothingIsStranded(maxWorkers: nat, capacity: nat, steps: seq<Step>)
    requires maxWorkers >= 1
    ensures var s := Ran(maxWorkers, capacity, steps);
            && s.phase == Open && s.queue != []
            && (forall i :: 0 <= i < |s.items| ==> s.items[i].submission != PutDone)
            ==> HasWorker(s)
  {
    Reachable(maxWorkers, capacity, steps);
    var s := Ran(maxWorkers, capacity, steps);
    if s.phase == Open && s.queue != [] && (forall i :: 0 <= i < |s.items| ==> s.items[i].submission != PutDone) {
      assert ItemOk(s, s.queue[0]);
      assert ThreadOk(s, 0);
    }
  }

  // ---------------------------------------------------------------- items only move forward

  function Rank(p: Place): nat {
    match p case Nowhere => 0 case InQueue => 1 case Taken(_) => 2 case Finished => 3 case Dropped => 3
  }

  lemma StepMovesForward(s: State, step: Step, i: nat)
    requires Inv(s) && i < |s.items|
    ensures var s2 := Next(s, step);
            i < |s2.items| && (s2.items[i].place == s.items[i].place
                               || Rank(s.items[i].place) < Rank(s2.items[i].place))
  {
    assert ItemOk(s, i);
    if step.Finishes? && step.t < |s.threads| { assert ThreadOk(s, step.t); }
  }

  /** A resolved item stays as it was resolved: no item runs twice, and none that was dropped ever runs. */
  lemma {:induction false} ResolvedStays(from: State, steps: seq<Step>, i: nat)
    requires Inv(from) && i < |from.items| && Rank(from.items[i].place) == 3
    ensures var s := Reached(Next, from, steps); i < |s.items| && s.items[i].place == from.items[i].place
    decreases |steps|
  {
    if steps != [] {
      ResolvedStays(from, Prefix(steps), i);
      RunKeeps(from, Prefix(steps));
      StepMovesForward(Reached(Next, from, Prefix(steps)), Final(steps), i);
    }
  }

  // ---------------------------------------------------------------- shutdown

  ghost predicate AllExited(s: State) { forall t :: 0 <= t < |s.threads| ==> s.threads[t] == Exited }

  /** Once the drain is over and the workers have left, every item that was not put late is resolved. */
  lemma ShutdownResolves(maxWorkers: nat, capacity: nat, steps: seq<Step>, i: nat)
    requires maxWorkers >= 1
    ensures var s := Ran(maxWorkers, capacity, steps);
            s.phase == Drained && AllExited(s) && i < |s.items| && s.items[i].submission != Checked ==>
              && (s.items[i].place in {Finished, Dropped} <==> i !in s.queue)
              && (!s.items[i].late ==> s.items[i].place in {Finished, Dropped})
  {
    Reachable(maxWorkers, capacity, steps);
    var s := Ran(maxWorkers, capacity, steps);
    if i < |s.items| { assert ItemOk(s, i); }
  }

  /** An accepted item in the queue of a pool that has drained and has no worker left. */
  ghost predicate Stranded(s: State, i: nat) {
    s.phase == Drained && AllExited(s) && i < |s.items| && s.items[i].place == InQueue
  }

  lemma DeadPoolStays(s: State, step: Step, i: nat)
    requires Inv(s) && Stranded(s, i)
    ensures Stranded(Next(s, step), i)
  {
    forall k | 0 <= k < |s.items|
      ensures !s.items[k].submission.ToStart? && (k == i ==> s.items[k].submission != Checked)
    {
      assert ItemOk(s, k);
    }
  }

  /** No further step ever resolves it. */
  lemma {:induction false} StrandedForGood(from: State, steps: seq<Step>, i: nat)
    requires Inv(from) && Stranded(from, i)
    ensures Stranded(Reached(Next, from, steps), i)
    decreases |steps|
  {
    if steps != [] {
      StrandedForGood(from, Prefix(steps), i);
      RunKeeps(from, Prefix(steps));
      DeadPoolStays(Reached(Next, from, Prefix(steps)), Final(steps), i);
    }
  }

  // ---------------------------------------------------------------- when an item can be stranded

  /** A submission is between its check and its put. */
  ghost predicate InFlight(s: State) { exists i :: 0 <= i < |s.items| && s.items[i].submission == Checked }

  ghost predicate Quiescent(s: State) { s.phase == Drained && s.queue == [] }

  lemma EmptyStep(s: State, step: Step)
    requires Quiescent(s) && !InFlight(s)
    ensures Quiescent(Next(s, step)) && !InFlight(Next(s, step))
  {
    var s2 := Next(s, step);
    forall i | 0 <= i < |s2.items| ensures s2.items[i].submission != Checked {
      assert s.items[i].submission != Checked;
    }
  }

  lemma {:induction false} EmptyStays(from: State, steps: seq<Step>)
    requires Quiescent(from) && !InFlight(from)
    ensures Quiescent(Reached(Next, from, steps)) && !InFlight(Reached(Next, from, steps))
    decreases |steps|
  {
    if steps != [] {
      EmptyStays(from, Prefix(steps));
      EmptyStep(Reached(Next, from, Prefix(steps)), Final(steps));
    }
  }

  /** The next step of a thread on its way out, and how far it has to go. */
  function Leaving(th: Thread, t: nat): Step {
    match th
    case Created(i) => Starts(i)
    case Got(_) => Unmarks(t)
    case Popped(_) => Begins(t)
    case Runs(_) => Finishes(t)
    case Top => Marks(t)
    case Waits => TimesOut(t)
    case SawEmpty => Unmarks(t)
    case Looks => LooksAround(t)
    case Exited => Shuts
  }

  function Distance(th: Thread): nat {
    match th
    case Created(_) => 8 case Got(_) => 7 case Popped(_) => 6 case Runs(_) => 5 case Top => 4 case Waits => 3
    case SawEmpty => 2 case Looks => 1 case Exited => 0
  }

  /** Thread `t` has come closer to its exit; nothing else has happened to the other threads and the submissions in
      flight. */
  ghost predicate OnItsWay(s: State, s2: State, t: nat) {
    && Quiescent(s2) && |s2.threads| == |s.threads| && |s2.items| == |s.items|
    && (forall u :: 0 <= u < |s.threads| && u != t ==> s2.threads[u] == s.threads[u])
    && (forall i :: 0 <= i < |s.items| && s.items[i].submission == Checked ==> s2.items[i].submission == Checked)
  }

  lemma LeaveStep(s: State, t: nat)
    requires Inv(s) && Quiescent(s) && t < |s.threads| && s.threads[t] != Exited
    ensures var s2 := Next(s, Leaving(s.threads[t], t));
            && OnItsWay(s, s2, t)
            && Distance(s2.threads[t]) < Distance(s.threads[t])
  {
    assert ThreadOk(s, t);
  }

  /** Once the queue stays empty, a worker can always leave. */
  lemma {:induction false} OneLeaves(s: State, t: nat) returns (steps: seq<Step>)
    requires Inv(s) && Quiescent(s) && t < |s.threads|
    ensures var s2 := Reached(Next, s, steps); OnItsWay(s, s2, t) && s2.threads[t] == Exited
    decreases Distance(s.threads[t])
  {
    if s.threads[t] == Exited { return []; }
    LeaveStep(s, t);
    var step := Leaving(s.threads[t], t);
    var s1 := Next(s, step);
    StepKeeps(s, step);
    var rest := OneLeaves(s1, t);
    steps := [step] + rest;
    assert Reached(Next, s, [step]) == s1 by { ReachedSnoc(Next, s, [], step); assert [] + [step] == [step]; }
    ReachedConcat(Next, s, [step], rest);
  }

  /** So they can all leave, with the submissions in flight still in flight. */
  lemma {:induction false} AllLeave(s: State, n: nat) returns (steps: seq<Step>)
    requires Inv(s) && Quiescent(s) && n <= |s.threads|
    ensures var s2 := Reached(Next, s, steps);
            && Quiescent(s2) && |s2.threads| == |s.threads| && |s2.items| == |s.items|
            && (forall t :: 0 <= t < n ==> s2.threads[t] == Exited)
            && (forall i :: 0 <= i < |s.items| && s.items[i].submission == Checked ==>
                s2.items[i].submission == Checked)
    decreases n
  {
    if n == 0 { return []; }
    var first := AllLeave(s, n - 1);
    var s1 := Reached(Next, s, first);
    RunKeeps(s, first);
    var rest := OneLeaves(s1, n - 1);
    steps := first + rest;
    ReachedConcat(Next, s, first, rest);
  }

  /** Some continuation strands an accepted item. */
  ghost predicate CanStrand(from: State) { exists steps, i :: Stranded(Reached(Next, from, steps), i) }

  /** When the drain has found the queue empty, an accepted item can still be stranded exactly when a submission is
      between its check and its put at that moment. */
  lemma StrandsIff(maxWorkers: nat, capacity: nat, steps: seq<Step>)
    requires maxWorkers >= 1 && Quiescent(Ran(maxWorkers, capacity, steps))
    ensures CanStrand(Ran(maxWorkers, capacity, steps)) <==> InFlight(Ran(maxWorkers, capacity, steps))
  {
    var from := Ran(maxWorkers, capacity, steps);
    Reachable(maxWorkers, capacity, steps);
    if InFlight(from) {
      InFlightStrands(from);
    } else {
      forall more, i ensures !Stranded(Reached(Next, from, more), i) {
        EmptyStays(from, more);
        RunKeeps(from, more);
        NobodyQueued(Reached(Next, from, more), i);
      }
    }
  }

  lemma NobodyQueued(s: State, i: nat)
    requires Inv(s) && s.queue == []
    ensures !Stranded(s, i)
  {
    if i < |s.items| { assert ItemOk(s, i); }
  }

  /** The workers leave, and then the item is put. */
  lemma InFlightStrands(from: State)
    requires Inv(from) && Quiescent(from) && InFlight(from)
    ensures CanStrand(from)
  {
    var i :| 0 <= i < |from.items| && from.items[i].submission == Checked;
    var out := AllLeave(from, |from.threads|);
    var s := Reached(Next, from, out);
    ReachedSnoc(Next, from, out, Puts(i));
    assert Next(s, Puts(i)) == Put(s, i);
    assert Stranded(Reached(Next, from, out + [Puts(i)]), i);
  }

  function Racing(maxWorkers: nat, phase: Phase, item: Item): State { State(maxWorkers, 0, [], [item], [], 0, phase) }

  const CHECKED_ITEM := Item(Checked, Nowhere, false)

  lemma ThreeSteps(s: State, first: Step, second: Step, third: Step) returns (steps: seq<Step>)
    ensures Reached(Next, s, steps) == Next(Next(Next(s, first), second), third)
  {
    ReachedSnoc(Next, s, [], first);
    ReachedSnoc(Next, s, [] + [first], second);
    ReachedSnoc(Next, s, [] + [first] + [second], third);
    steps := [] + [first] + [second] + [third];
  }

  /** A submission checks, the pool is shut, and the drain finds the queue empty. */
  lemma RaceHappens(maxWorkers: nat)
    ensures Next(Start(maxWorkers, 0), Submits) == Racing(maxWorkers, Open, CHECKED_ITEM)
    ensures Next(Racing(maxWorkers, Open, CHECKED_ITEM), Shuts) == Racing(maxWorkers, Draining, CHECKED_ITEM)
    ensures Next(Racing(maxWorkers, Draining, CHECKED_ITEM), DrainEnds) == Racing(maxWorkers, Drained, CHECKED_ITEM)
  {
  }

  lemma RaceIsReached(maxWorkers: nat) returns (steps: seq<Step>)
    ensures Ran(maxWorkers, 0, steps) == Racing(maxWorkers, Drained, CHECKED_ITEM)
  {
    RaceHappens(maxWorkers);
    steps := ThreeSteps(Start(maxWorkers, 0), Submits, Shuts, DrainEnds);
  }

  lemma RaceIsInFlight(s: State, maxWorkers: nat)
    requires s == Racing(maxWorkers, Drained, CHECKED_ITEM)
    ensures Quiescent(s) && InFlight(s)
  {
    assert s.items[0].submission == Checked;
  }

  /** ... and that moment exists: the check and the put are not one step. */
  lemma SubmitRacesShutdown(maxWorkers: nat)
    requires maxWorkers >= 1
    ensures exists steps :: && Quiescent(Ran(maxWorkers, 0, steps)) && InFlight(Ran(maxWorkers, 0, steps))
                            && CanStrand(Ran(maxWorkers, 0, steps))
  {
    var steps := RaceIsReached(maxWorkers);
    RaceIsInFlight(Ran(maxWorkers, 0, steps), maxWorkers);
    StrandsIff(maxWorkers, 0, steps);
  }

  // ---------------------------------------------------------------- the object

  function DrainQueue(s: State): State
    requires forall k :: 0 <= k < |s.queue| ==> s.queue[k] < |s.items|
    decreases |s.queue|
  {
    if s.queue == [] then s else DrainQueue(DrainOne(s))
  }

  class DaemonWorkerPool {
    const maxWorkers: nat
    const capacity: nat
    var work: seq<nat>
    var items: seq<Item>
    var threads: seq<Thread>
    var idleCount: int
    var phase: Phase

    function Now(): State
      reads this
    {
      State(maxWorkers, capacity, work, items, threads, idleCount, phase)
    }

    constructor (maxWorkers: nat, capacity: nat)
      ensures Now() == Start(maxWorkers, capacity)
    {
      this.maxWorkers, this.capacity := maxWorkers, capacity;
      work, items, threads, idleCount, phase := [], [], [], 0, Open;
    }

    /** The check `submit` starts with; false when it raises. */
    method CheckOpen() returns (open: bool)
      requires Inv(Now())
      modifies this`items
      ensures Now() == Submit(old(Now())) && Inv(Now())
      ensures (open <==> phase == Open) && |items| == |old(items)| + if open then 1 else 0
    {
      SubmitKeeps(Now());
      open := phase == Open;
      if open { items := items + [Item(Checked, Nowhere, false)]; }
    }

    method PutItem(i: nat)
      requires Inv(Now()) && Enabled(Now(), Puts(i))
      modifies this`items, this`work
      ensures Now() == Put(old(Now()), i) && Inv(Now())
    {
      PutKeeps(Now(), i);
      work := work + [i];
      items := items[i := Item(PutDone, InQueue, phase == Drained)];
    }

    method EnterWait(t: nat)
      requires Inv(Now()) && Enabled(Now(), Marks(t))
      modifies this`threads, this`idleCount
      ensures Now() == MarkIdle(old(Now()), t) && Inv(Now())
    {
      MoveKeeps(Now(), t, Waits, idleCount + 1);
      idleCount := idleCount + 1;
      threads := threads[t := Waits];
    }

    /** `get` with its timeout: an item exactly when the queue has one. */
    method TryGet(t: nat) returns (got: bool)
      requires Inv(Now()) && t < |threads| && threads[t] == Waits
      modifies this`threads, this`work, this`items
      ensures Inv(Now()) && (got <==> old(work) != [])
      ensures Now() == if got then Get(old(Now()), t) else SetThread(old(Now()), t, SawEmpty)
    {
      got := work != [];
      if got {
        GetKeeps(Now(), t);
        threads := threads[t := Got(work[0])];
        items := items[work[0] := items[work[0]].(place := Taken(t))];
        work := work[1..];
      } else {
        MoveKeeps(Now(), t, SawEmpty, idleCount);
        threads := threads[t := SawEmpty];
      }
    }

    /** The worker is not idle any more, and leaves if there was nothing to do and the pool is shut. */
    method LeaveWait(t: nat) returns (leaves: bool)
      requires Inv(Now()) && Enabled(Now(), Unmarks(t))
      modifies this`threads, this`idleCount
      ensures Inv(Now()) && (leaves <==> old(threads)[t] == SawEmpty && phase != Open)
      ensures var s := Unmark(old(Now()), t); Now() == if old(threads)[t] == SawEmpty then Look(s, t) else s
    {
      var empty := threads[t] == SawEmpty;
      MoveKeeps(Now(), t, if empty then Looks else Popped(threads[t].item), idleCount - 1);
      idleCount := idleCount - 1;
      threads := threads[t := if empty then Looks else Popped(threads[t].item)];
      leaves := empty && phase != Open;
      if empty {
        MoveKeeps(Now(), t, if leaves then Exited else Top, idleCount);
        threads := threads[t := if leaves then Exited else Top];
      }
    }

    method FinishItem(t: nat)
      requires Inv(Now()) && Enabled(Now(), Finishes(t))
      modifies this`threads, this`items
      ensures Now() == Finish(old(Now()), t, old(threads)[t].item) && Inv(Now())
    {
      FinishKeeps(Now(), t);
      var i := threads[t].item;
      items := items[i := items[i].(place := Finished)];
      threads := threads[t := Top];
    }

    /** The look under the lock: the thread it created, if it created one. */
    method AdjustThreadCount(i: nat) returns (spawned: bool)
      requires Inv(Now()) && Enabled(Now(), Adjusts(i))
      modifies this`items, this`threads
      ensures Now() == Adjust(old(Now()), i) && Inv(Now())
      ensures spawned <==> |threads| == |old(threads)| + 1
      ensures spawned <==> phase == Open && IdleThreads(old(threads)) == 0 && |old(threads)| < maxWorkers
    {
      AdjustKeeps(Now(), i);
      var needed := maxWorkers - |threads|;
      spawned := !(idleCount > 0 || needed <= 0 || phase != Open);
      items := items[i := items[i].(submission := if spawned then ToStart(|threads|) else Returned)];
      if spawned { threads := threads + [Created(i)]; }
    }

    /** Shutdown with nobody else running: the flag, then the drain to its end. */
    method Shutdown()
      requires Inv(Now()) && phase == Open
      modifies this`phase, this`work, this`items
      ensures Now() == DrainQueue(old(Now()).(phase := Draining)).(phase := Drained)
      ensures Inv(Now()) && work == []
    {
      PhaseKeeps(Now(), Draining);
      phase := Draining;
      while work != []
        invariant Inv(Now()) && phase == Draining
        invariant DrainQueue(Now()) == DrainQueue(old(Now()).(phase := Draining))
        decreases |work|
      {
        DrainKeeps(Now());
        items := items[work[0] := items[work[0]].(place := Dropped)];
        work := work[1..];
      }
      PhaseKeeps(Now(), Drained);
      phase := Drained;
    }
  }
}
