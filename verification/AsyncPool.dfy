/** The semaphore-based worker pool in multi-worker mode, from its start to the end of one stop.

    A delivery becomes a task that waits for a worker slot and then runs the handler. Stopping cancels the tasks that
    have not started, requeues their messages, waits for the running handlers, cancels the ones that are late, and
    requeues what those left unsettled. A settlement claims the message before it waits for the broker, so deciding
    that a message is unsettled and claiming it are one step.
 */
module AsyncPool {
  import opened Common

  /** `Leaving`: cancelled before it started; `held` if it had been given a slot. */
  datatype Stage = Queued | Granted | Running | Leaving(held: bool) | Done | Turned

  datatype Settled = Unsettled | ByHandler | ByPool

  /** `ran`: the handler has started; `cut`: the pool cancelled the task or turned the delivery away; `nacks`: how often
      the pool has asked for a requeue. */
  datatype Task = Task(stage: Stage, settled: Settled, ran: bool, cut: bool, nacks: nat)

  datatype Stopping =
    | Not
    | Releasing(queued: seq<nat>) | Returning(queued: seq<nat>)
    | Waiting(started: seq<nat>) | Joining(pending: seq<nat>) | Cutting(pending: seq<nat>)
    | Stopped

  datatype State = State(workers: nat, slots: int, tasks: seq<Task>, stopping: Stopping)

  // ---------------------------------------------------------------- the code

  function Set(s: State, t: nat, to: Task): State
    requires t < |s.tasks|
  {
    s.(tasks := s.tasks[t := to])
  }

  /** `nack_async(requeue=True)` guarded by `is_settled`. */
  function Nack(k: Task): Task { if k.settled == Unsettled then k.(settled := ByPool, nacks := k.nacks + 1) else k }

  /** A delivery that is already settled is not touched when it is turned away. */
  function Submit(s: State, settled: bool): State {
    if s.stopping == Not then
      s.(tasks := s.tasks + [Task(Queued, if settled then ByHandler else Unsettled, false, false, 0)])
    else s.(tasks := s.tasks + [Nack(Task(Turned, if settled then ByHandler else Unsettled, false, true, 0))])
  }

  function Grant(s: State, t: nat): State
    requires t < |s.tasks|
  {
    Set(s, t, s.tasks[t].(stage := Granted)).(slots := s.slots - 1)
  }

  function Complete(s: State, t: nat): State
    requires t < |s.tasks|
  {
    Set(s, t, s.tasks[t].(stage := Done)).(slots := s.slots + if HoldsSlot(s.tasks[t]) then 1 else 0)
  }

  predicate HoldsSlot(k: Task) { k.stage == Granted || k.stage == Running || k.stage == Leaving(true) }

  function NotStarted(k: Task): bool { k.stage == Queued || k.stage == Granted }

  function Cancel(k: Task): Task {
    if NotStarted(k) then k.(stage := Leaving(k.stage == Granted), cut := true)
    else if k.stage == Running then k.(cut := true)
    else k
  }

  /** The tasks among the first `n` for which `p` holds. */
  function Select(ts: seq<Task>, n: nat, p: Task -> bool): seq<nat>
    requires n <= |ts|
  {
    if n == 0 then [] else Select(ts, n - 1, p) + if p(ts[n - 1]) then [n - 1] else []
  }

  function CancelEach(ts: seq<Task>, ns: seq<nat>): seq<Task>
    requires Below(ns, |ts|)
    decreases |ns|
  {
    if ns == [] then ts else CancelEach(ts[ns[0] := Cancel(ts[ns[0]])], ns[1..])
  }

  /** `stop` up to its first wait. */
  function BeginStop(s: State): State {
    SelectBelow(s.tasks, |s.tasks|, NotStarted);
    var queued := Select(s.tasks, |s.tasks|, NotStarted);
    if queued == [] then AfterRelease(s) else s.(tasks := CancelEach(s.tasks, queued), stopping := Releasing(queued))
  }

  function IsRunning(k: Task): bool { k.stage == Running }

  /** Past the released deliveries: wait for what has started, or return. */
  function AfterRelease(s: State): State {
    var started := Select(s.tasks, |s.tasks|, IsRunning);
    s.(stopping := if started == [] then Stopped else Waiting(started))
  }

  function NackHead(s: State, rest: seq<nat>): State
    requires rest != [] && rest[0] < |s.tasks|
  {
    Set(s, rest[0], Nack(s.tasks[rest[0]]))
  }

  function Late(s: State, started: seq<nat>): seq<nat> {
    if started == [] then []
    else (if started[0] < |s.tasks| && IsRunning(s.tasks[started[0]]) then [started[0]] else []) + Late(s, started[1..])
  }

  /** The grace period is over: cancel what is still running. */
  function EndWait(s: State, started: seq<nat>): State {
    LateBelow(s, started);
    var pending := Late(s, started);
    if pending == [] then s.(stopping := Stopped)
    else s.(tasks := CancelEach(s.tasks, pending), stopping := Joining(pending))
  }

  lemma {:induction false} SelectBelow(ts: seq<Task>, n: nat, p: Task -> bool)
    requires n <= |ts|
    ensures Below(Select(ts, n, p), n)
    ensures forall t :: t in Select(ts, n, p) <==> 0 <= t < n && p(ts[t])
  {
    if n > 0 { SelectBelow(ts, n - 1, p); }
  }

  lemma {:induction false} LateBelow(s: State, started: seq<nat>)
    ensures Below(Late(s, started), |s.tasks|)
    ensures forall t :: t in Late(s, started) <==> t in started && t < |s.tasks| && IsRunning(s.tasks[t])
  {
    if started != [] { LateBelow(s, started[1..]); }
  }

  // ---------------------------------------------------------------- the machine

  datatype Step =
    | Submits(settled: bool) | Grants(t: nat) | Begins(t: nat) | Settles(t: nat) | Completes(t: nat)
    | Stops | Released | NacksReleased | Grace | Joined | NacksCut

  predicate Enabled(s: State, step: Step) {
    match step
    case Submits(_) => true
    case Grants(t) => t < |s.tasks| && s.tasks[t].stage == Queued && s.slots > 0
    case Begins(t) => t < |s.tasks| && s.tasks[t].stage == Granted
    case Settles(t) => t < |s.tasks| && s.tasks[t].stage == Running && s.tasks[t].settled == Unsettled
    case Completes(t) => t < |s.tasks| && (s.tasks[t].stage == Running || s.tasks[t].stage.Leaving?)
    case Stops => s.stopping == Not
    case Released => s.stopping.Releasing?
    case NacksReleased => s.stopping.Returning? && Below(s.stopping.queued, |s.tasks|)
    case Grace => s.stopping.Waiting?
    case Joined => s.stopping.Joining?
    case NacksCut => s.stopping.Cutting? && Below(s.stopping.pending, |s.tasks|)
  }

  function Apply(s: State, step: Step): State
    requires Enabled(s, step)
  {
    match step
    case Submits(settled) => Submit(s, settled)
    case Grants(t) => Grant(s, t)
    case Begins(t) => Set(s, t, s.tasks[t].(stage := Running, ran := true))
    case Settles(t) => Set(s, t, s.tasks[t].(settled := ByHandler))
    case Completes(t) => Complete(s, t)
    case Stops => BeginStop(s)
    case Released => s.(stopping := Returning(s.stopping.queued))
    case NacksReleased => (
      var rest := s.stopping.queued;
      if rest == [] then AfterRelease(s) else NackHead(s, rest).(stopping := Returning(rest[1..])))
    case Grace => EndWait(s, s.stopping.started)
    case Joined => s.(stopping := Cutting(s.stopping.pending))
    case NacksCut => (
      var rest := s.stopping.pending;
      if rest == [] then s.(stopping := Stopped) else NackHead(s, rest).(stopping := Cutting(rest[1..])))
  }

  // ---------------------------------------------------------------- what every step keeps

  function InUse(ts: seq<Task>): nat {
    if ts == [] then 0 else InUse(ts[..|ts| - 1]) + if HoldsSlot(ts[|ts| - 1]) then 1 else 0
  }

  lemma {:induction false} InUseUpdate(ts: seq<Task>, t: nat, to: Task)
    requires t < |ts|
    ensures InUse(ts[t := to]) == InUse(ts) - (if HoldsSlot(ts[t]) then 1 else 0) + if HoldsSlot(to) then 1 else 0
  {
    var n := |ts| - 1;
    assert ts[t := to][..n] == if t < n then ts[..n][t := to] else ts[..n];
    if t < n { InUseUpdate(ts[..n], t, to); }
  }

  lemma InUseSnoc(ts: seq<Task>, k: Task)
    ensures InUse(ts + [k]) == InUse(ts) + if HoldsSlot(k) then 1 else 0
  {
    assert (ts + [k])[..|ts|] == ts;
  }

  /** The deliveries whose requeue the stop still owes. */
  function Owed(p: Stopping): seq<nat> {
    match p
    case Releasing(q) => q
    case Returning(q) => q
    case Joining(q) => q
    case Cutting(q) => q
    case _ => []
  }

  ghost predicate TaskOk(s: State, t: nat)
    requires t < |s.tasks|
  {
    var k := s.tasks[t];
    && k.nacks == (if k.settled == ByPool then 1 else 0)
    && (k.settled == ByPool ==> k.cut)
    && (k.stage == Running || (k.stage == Done && !k.cut) ==> k.ran)
    && (NotStarted(k) || k.stage.Leaving? || k.stage == Turned ==> !k.ran)
    && (k.stage.Leaving? || k.stage == Turned ==> k.cut)
    && (k.cut ==> s.stopping != Not && !NotStarted(k))
    && (k.stage == Turned ==> k.settled != Unsettled)
    && (s.stopping != Not ==> !NotStarted(k))
    && (k.cut && k.settled == Unsettled ==> t in Owed(s.stopping))
    && (k.stage == Running && s.stopping.Waiting? ==> t in s.stopping.started)
  }

  /** What the stop still owes it owes to deliveries it cut itself, each once. */
  ghost predicate OwedOk(s: State) {
    && (forall i :: 0 <= i < |Owed(s.stopping)| ==> Owed(s.stopping)[i] < |s.tasks| && s.tasks[Owed(s.stopping)[i]].cut)
    && (s.stopping.Waiting? ==> Below(s.stopping.started, |s.tasks|))
  }

  ghost predicate Inv(s: State) {
    && s.slots >= 0 && s.slots + InUse(s.tasks) == s.workers
    && OwedOk(s)
    && (forall t :: 0 <= t < |s.tasks| ==> TaskOk(s, t))
  }

  /** A new task that is in order by itself leaves the others in order. */
  lemma JoinKeeps(s: State, k: Task)
    requires Inv(s) && !HoldsSlot(k) && TaskOk(s.(tasks := s.tasks + [k]), |s.tasks|)
    ensures Inv(s.(tasks := s.tasks + [k]))
  {
    var s2 := s.(tasks := s.tasks + [k]);
    InUseSnoc(s.tasks, k);
    forall t | 0 <= t < |s2.tasks| ensures TaskOk(s2, t) { if t < |s.tasks| { assert TaskOk(s, t); } }
  }

  lemma SubmitKeeps(s: State, settled: bool)
    requires Inv(s)
    ensures Inv(Submit(s, settled))
  {
    var was := if settled then ByHandler else Unsettled;
    JoinKeeps(s, if s.stopping == Not then Task(Queued, was, false, false, 0)
              else Nack(Task(Turned, was, false, true, 0)));
  }

  /** One task moves on by itself. */
  lemma MoveKeeps(s: State, t: nat, to: Task, slots: int)
    requires Inv(s) && t < |s.tasks|
    requires slots == s.slots + (if HoldsSlot(s.tasks[t]) then 1 else 0) - (if HoldsSlot(to) then 1 else 0)
             && slots >= 0
    requires TaskOk(Set(s, t, to), t) && to.cut == s.tasks[t].cut
    ensures Inv(Set(s, t, to).(slots := slots))
  {
    var s2 := Set(s, t, to).(slots := slots);
    InUseUpdate(s.tasks, t, to);
    forall k | 0 <= k < |s2.tasks| ensures TaskOk(s2, k) { assert TaskOk(s, k); }
  }

  /** What cancelling the tasks in a list does to the others, and to each of them. */
  lemma {:induction false} CancelFrame(ts: seq<Task>, ns: seq<nat>)
    requires Below(ns, |ts|)
    ensures |CancelEach(ts, ns)| == |ts| && InUse(CancelEach(ts, ns)) == InUse(ts)
    ensures forall t :: 0 <= t < |ts| ==> CancelEach(ts, ns)[t] == if t in ns then Cancel(ts[t]) else ts[t]
    decreases |ns|
  {
    if ns != [] {
      var n := ns[0];
      InUseUpdate(ts, n, Cancel(ts[n]));
      CancelFrame(ts[n := Cancel(ts[n])], ns[1..]);
      forall t | 0 <= t < |ts| ensures CancelEach(ts, ns)[t] == if t in ns then Cancel(ts[t]) else ts[t] {
        assert t in ns <==> t == n || t in ns[1..];
        assert Cancel(Cancel(ts[t])) == Cancel(ts[t]);
      }
    }
  }

  lemma AfterReleaseKeeps(s: State)
    requires Inv(s.(stopping := Returning([])))
             || (Inv(s) && s.stopping == Not && Select(s.tasks, |s.tasks|, NotStarted) == [])
    ensures Inv(AfterRelease(s))
  {
    var s2 := AfterRelease(s);
    SelectBelow(s.tasks, |s.tasks|, IsRunning);
    SelectBelow(s.tasks, |s.tasks|, NotStarted);
    forall t | 0 <= t < |s2.tasks| ensures TaskOk(s2, t) {
      assert TaskOk(s.(stopping := Returning([])), t) || TaskOk(s, t);
    }
  }

  lemma BeginStopKeeps(s: State)
    requires Inv(s) && s.stopping == Not
    ensures Inv(BeginStop(s))
  {
    var queued := Select(s.tasks, |s.tasks|, NotStarted);
    SelectBelow(s.tasks, |s.tasks|, NotStarted);
    if queued == [] {
      AfterReleaseKeeps(s);
    } else {
      var s2 := BeginStop(s);
      CancelFrame(s.tasks, queued);
      forall i | 0 <= i < |queued| ensures queued[i] < |s2.tasks| && s2.tasks[queued[i]].cut {
        assert queued[i] in queued;
      }
      forall t | 0 <= t < |s2.tasks| ensures TaskOk(s2, t) { assert TaskOk(s, t); }
    }
  }

  lemma EndWaitKeeps(s: State)
    requires Inv(s) && s.stopping.Waiting?
    ensures Inv(EndWait(s, s.stopping.started))
  {
    var pending, s2 := Late(s, s.stopping.started), EndWait(s, s.stopping.started);
    LateBelow(s, s.stopping.started);
    CancelFrame(s.tasks, pending);
    forall i | 0 <= i < |pending| ensures pending[i] < |s2.tasks| && s2.tasks[pending[i]].cut {
      assert pending[i] in pending;
    }
    forall t | 0 <= t < |s2.tasks| ensures TaskOk(s2, t) { WaitedTask(s, t); }
  }

  /** A task that is cut at the end of the wait is owed its settlement. */
  lemma WaitedTask(s: State, t: nat)
    requires Inv(s) && s.stopping.Waiting? && t < |s.tasks|
    ensures var s2 := EndWait(s, s.stopping.started); t < |s2.tasks| && TaskOk(s2, t)
  {
    LateBelow(s, s.stopping.started);
    CancelFrame(s.tasks, Late(s, s.stopping.started));
    assert TaskOk(s, t);
  }

  /** The next delivery on the list is requeued if it is still unsettled, and comes off the list. */
  lemma NackHeadKeeps(s: State, rest: seq<nat>, next: Stopping)
    requires Inv(s) && rest != [] && Owed(s.stopping) == rest && Owed(next) == rest[1..]
    requires next.Returning? || next.Cutting?
    ensures Inv(NackHead(s, rest).(stopping := next))
  {
    var s2, n := NackHead(s, rest).(stopping := next), rest[0];
    InUseUpdate(s.tasks, n, Nack(s.tasks[n]));
    assert TaskOk(s, n);
    forall t | 0 <= t < |s2.tasks| ensures TaskOk(s2, t) {
      assert TaskOk(s, t);
      assert t in rest ==> t == n || t in rest[1..];
    }
  }

  lemma RenameKeeps(s: State, next: Stopping)
    requires Inv(s) && s.stopping != Not && next != Not && !next.Waiting? && Owed(next) == Owed(s.stopping)
    ensures Inv(s.(stopping := next))
  {
    var s2 := s.(stopping := next);
    forall t | 0 <= t < |s2.tasks| ensures TaskOk(s2, t) { assert TaskOk(s, t); }
  }

  lemma StopStepKeeps(s: State, step: Step)
    requires Inv(s) && Enabled(s, step) && !step.Submits? && !step.Grants? && !step.Begins? && !step.Settles?
             && !step.Completes?
    ensures Inv(Apply(s, step))
  {
    match step
    case Stops => BeginStopKeeps(s);
    case Released => RenameKeeps(s, Returning(s.stopping.queued));
    case NacksReleased =>
      var rest := s.stopping.queued;
      if rest == [] {
        assert s.(stopping := Returning([])) == s;
        AfterReleaseKeeps(s);
      } else {
        NackHeadKeeps(s, rest, Returning(rest[1..]));
      }
    case Grace => EndWaitKeeps(s);
    case Joined => RenameKeeps(s, Cutting(s.stopping.pending));
    case NacksCut =>
      var rest := s.stopping.pending;
      if rest == [] { RenameKeeps(s, Stopped); } else { NackHeadKeeps(s, rest, Cutting(rest[1..])); }
  }

  lemma TaskStepKeeps(s: State, step: Step)
    requires Inv(s) && Enabled(s, step) && (step.Grants? || step.Begins? || step.Settles? || step.Completes?)
    ensures Inv(Apply(s, step))
  {
    var k := s.tasks[step.t];
    assert TaskOk(s, step.t);
    match step
    case Grants(t) => MoveKeeps(s, t, k.(stage := Granted), s.slots - 1);
    case Begins(t) => MoveKeeps(s, t, k.(stage := Running, ran := true), s.slots);
    case Settles(t) => MoveKeeps(s, t, k.(settled := ByHandler), s.slots);
    case Completes(t) => MoveKeeps(s, t, k.(stage := Done), s.slots + if HoldsSlot(k) then 1 else 0);
  }

  function Next(s: State, step: Step): State { if Enabled(s, step) then Apply(s, step) else s }

  lemma StepKeeps(s: State, step: Step)
    requires Inv(s)
    ensures Inv(Next(s, step)) && Next(s, step).workers == s.workers
  {
    if Enabled(s, step) {
      if step.Submits? {
        SubmitKeeps(s, step.settled);
      } else if step.Grants? || step.Begins? || step.Settles? || step.Completes? {
        TaskStepKeeps(s, step);
      } else {
        StopStepKeeps(s, step);
      }
    }
  }

  // ---------------------------------------------------------------- whole runs

  function Start(workers: nat): State { State(workers, workers, [], Not) }

  function Ran(workers: nat, steps: seq<Step>): State { Reached(Next, Start(workers), steps) }

  lemma RunKeeps(from: State, steps: seq<Step>)
    requires Inv(from)
    ensures Inv(Reached(Next, from, steps)) && Reached(Next, from, steps).workers == from.workers
  {
    var inv := (s: State) => Inv(s) && s.workers == from.workers;
    forall s, step | inv(s) ensures inv(Next(s, step)) { StepKeeps(s, step); }
    ReachedKeeps(Next, inv, from, steps);
  }

  lemma Reachable(workers: nat, steps: seq<Step>)
    ensures Inv(Ran(workers, steps)) && Ran(workers, steps).workers == workers
  {
    assert Inv(Start(workers));
    RunKeeps(Start(workers), steps);
  }

  /** The handlers running at once. */
  function RunningNow(ts: seq<Task>): nat {
    if ts == [] then 0 else RunningNow(ts[..|ts| - 1]) + if ts[|ts| - 1].stage == Running then 1 else 0
  }

  lemma {:induction false} RunningHoldSlots(ts: seq<Task>)
    ensures RunningNow(ts) <= InUse(ts)
  {
    if ts != [] { RunningHoldSlots(ts[..|ts| - 1]); }
  }

  /** Never more handlers at once than workers, and no slot is ever lost. */
  lemma ConcurrencyIsBounded(workers: nat, steps: seq<Step>)
    ensures var s := Ran(workers, steps); RunningNow(s.tasks) <= workers && s.slots + InUse(s.tasks) == workers
  {
    Reachable(workers, steps);
    RunningHoldSlots(Ran(workers, steps).tasks);
  }

  /** The pool asks for a requeue at most once per delivery, only for one it cut, and never for one already settled. */
  lemma NackedAtMostOnce(workers: nat, steps: seq<Step>, t: nat)
    requires t < |Ran(workers, steps).tasks|
    ensures var k := Ran(workers, steps).tasks[t];
            k.nacks <= 1 && (k.nacks == 1 <==> k.settled == ByPool) && (k.nacks == 1 ==> k.cut)
  {
    Reachable(workers, steps);
    assert TaskOk(Ran(workers, steps), t);
  }

  /** When the stop returns, nothing it cut is left unsettled: the handler settled it, or the pool did, once. */
  lemma StopSettlesWhatItCuts(workers: nat, steps: seq<Step>, t: nat)
    requires Ran(workers, steps).stopping == Stopped && t < |Ran(workers, steps).tasks|
    ensures var k := Ran(workers, steps).tasks[t];
            && (k.cut ==> k.settled == ByHandler || (k.settled == ByPool && k.nacks == 1))
            && (!k.cut ==> k.ran && k.nacks == 0)
            && (!k.ran ==> k.cut && k.stage in {Leaving(true), Leaving(false), Done, Turned})
  {
    Reachable(workers, steps);
    assert TaskOk(Ran(workers, steps), t);
  }

  /** From one state to the next, a settlement is final, a requeue is asked only of an unsettled message, and after the
      stop has begun nothing starts. */
  ghost predicate Monotone(s: State, s2: State, t: nat) {
    && t < |s.tasks| && t < |s2.tasks|
    && (s.tasks[t].settled != Unsettled ==> s2.tasks[t].settled == s.tasks[t].settled)
    && (s.stopping != Not ==> s2.stopping != Not && s2.tasks[t].ran == s.tasks[t].ran)
    && (s2.tasks[t].nacks > s.tasks[t].nacks ==> s.tasks[t].settled == Unsettled)
  }

  lemma TaskStepIsMonotone(s: State, step: Step, t: nat)
    requires Inv(s) && Enabled(s, step) && t < |s.tasks|
    requires step.Submits? || step.Grants? || step.Begins? || step.Settles? || step.Completes?
    ensures Monotone(s, Apply(s, step), t)
  {
    assert TaskOk(s, t);
  }

  lemma StopStepIsMonotone(s: State, step: Step, t: nat)
    requires Inv(s) && Enabled(s, step) && t < |s.tasks|
    requires !step.Submits? && !step.Grants? && !step.Begins? && !step.Settles? && !step.Completes?
    ensures Monotone(s, Apply(s, step), t)
  {
    if step.Stops? {
      SelectBelow(s.tasks, |s.tasks|, NotStarted);
      CancelFrame(s.tasks, Select(s.tasks, |s.tasks|, NotStarted));
    } else if step.Grace? {
      LateBelow(s, s.stopping.started);
      CancelFrame(s.tasks, Late(s, s.stopping.started));
    }
  }

  lemma StepIsMonotone(s: State, step: Step, t: nat)
    requires Inv(s) && t < |s.tasks|
    ensures Monotone(s, Next(s, step), t)
  {
    if Enabled(s, step) {
      if step.Submits? || step.Grants? || step.Begins? || step.Settles? || step.Completes? {
        TaskStepIsMonotone(s, step, t);
      } else {
        StopStepIsMonotone(s, step, t);
      }
    }
  }

  /** A delivery that has not started when the stop begins never runs its handler, and what is settled stays so. */
  lemma {:induction false} NotStartedNeverRuns(from: State, steps: seq<Step>, t: nat)
    requires Inv(from) && from.stopping != Not && t < |from.tasks|
    ensures var s := Reached(Next, from, steps);
            && t < |s.tasks| && s.stopping != Not && s.tasks[t].ran == from.tasks[t].ran
            && (from.tasks[t].settled != Unsettled ==> s.tasks[t].settled == from.tasks[t].settled)
    decreases |steps|
  {
    if steps != [] {
      NotStartedNeverRuns(from, Prefix(steps), t);
      RunKeeps(from, Prefix(steps));
      StepIsMonotone(Reached(Next, from, Prefix(steps)), Final(steps), t);
    }
  }

  // ---------------------------------------------------------------- whom the stop cuts

  /** A delivery joins the line while the pool is open; afterwards it is requeued at once, unless it is settled. */
  lemma SubmitAnswers(s: State, settled: bool)
    ensures var s2 := Submit(s, settled);
            && |s2.tasks| == |s.tasks| + 1 && Prefix(s2.tasks) == s.tasks && s2 == s.(tasks := s2.tasks)
            && var k := Final(s2.tasks);
               && !k.ran && k.nacks == (if !settled && s.stopping != Not then 1 else 0)
               && k.settled == (if settled then ByHandler else if s.stopping == Not then Unsettled else ByPool)
               && k.stage == (if s.stopping == Not then Queued else Turned) && (k.cut <==> s.stopping != Not)
  {
    Snoc(s.tasks, Final(Submit(s, settled).tasks));
  }

  /** Once the stop waits, it waits for every handler that still runs; once it no longer does, none runs uncut. */
  ghost predicate Rounded(s: State) {
    && (s.stopping.Waiting? ==>
          forall t :: 0 <= t < |s.tasks| && s.tasks[t].stage == Running && !s.tasks[t].cut ==> t in s.stopping.started)
    && (s.stopping.Joining? || s.stopping.Cutting? || s.stopping.Stopped? ==>
          forall t :: 0 <= t < |s.tasks| && s.tasks[t].stage == Running ==> s.tasks[t].cut)
  }

  /** The stop begins by cutting exactly the deliveries that have not started. */
  lemma StopCutsTheQueued(s: State, t: nat)
    requires Inv(s) && Enabled(s, Stops) && t < |s.tasks|
    ensures var s2 := Apply(s, Stops);
            && |s2.tasks| == |s.tasks| && s2.stopping != Not
            && s2.tasks[t] == (if s.tasks[t].stage == Queued then s.tasks[t].(stage := Leaving(false), cut := true)
                               else if s.tasks[t].stage == Granted then s.tasks[t].(stage := Leaving(true), cut := true)
                               else s.tasks[t])
  {
    SelectBelow(s.tasks, |s.tasks|, NotStarted);
    CancelFrame(s.tasks, Select(s.tasks, |s.tasks|, NotStarted));
    assert Select(s.tasks, |s.tasks|, NotStarted) == [] ==> t !in Select(s.tasks, |s.tasks|, NotStarted);
  }

  /** The end of the grace period cuts exactly the handlers that still run, and leaves nobody else to be joined. */
  lemma GraceCutsTheLate(s: State, t: nat)
    requires Inv(s) && Rounded(s) && Enabled(s, Grace) && t < |s.tasks|
    ensures var s2 := Apply(s, Grace);
            && |s2.tasks| == |s.tasks| && (s2.stopping.Joining? || s2.stopping == Stopped)
            && s2.tasks[t] == (if s.tasks[t].stage == Running then s.tasks[t].(cut := true) else s.tasks[t])
            && (s.tasks[t].stage == Running && !s.tasks[t].cut ==> s2.stopping.Joining? && t in s2.stopping.pending)
  {
    LateBelow(s, s.stopping.started);
    CancelFrame(s.tasks, Late(s, s.stopping.started));
  }

  lemma StopCuts(s: State)
    requires Inv(s) && s.stopping == Not
    ensures |BeginStop(s).tasks| == |s.tasks|
    ensures forall t :: 0 <= t < |s.tasks| ==>
              (BeginStop(s).tasks[t].cut <==> s.tasks[t].cut || NotStarted(s.tasks[t]))
  {
    SelectBelow(s.tasks, |s.tasks|, NotStarted);
    CancelFrame(s.tasks, Select(s.tasks, |s.tasks|, NotStarted));
    forall t | 0 <= t < |s.tasks| ensures BeginStop(s).tasks[t].cut <==> s.tasks[t].cut || NotStarted(s.tasks[t]) {
      StopCutsTheQueued(s, t);
    }
  }

  lemma AfterReleaseRounds(s: State)
    ensures Rounded(AfterRelease(s))
  {
    SelectBelow(s.tasks, |s.tasks|, IsRunning);
  }

  lemma StopStepRounds(s: State, step: Step)
    requires Inv(s) && Rounded(s) && Enabled(s, step)
    requires !step.Submits? && !step.Grants? && !step.Begins? && !step.Settles? && !step.Completes?
    ensures Rounded(Apply(s, step))
  {
    match step
    case Stops => AfterReleaseRounds(s);
    case NacksReleased => AfterReleaseRounds(s);
    case Grace => EndWaitRounds(s);
    case _ =>
  }

  lemma EndWaitRounds(s: State)
    requires Inv(s) && Rounded(s) && s.stopping.Waiting?
    ensures Rounded(EndWait(s, s.stopping.started))
  {
    var s2 := EndWait(s, s.stopping.started);
    LateBelow(s, s.stopping.started);
    CancelFrame(s.tasks, Late(s, s.stopping.started));
    forall t | 0 <= t < |s2.tasks| && s2.tasks[t].stage == Running ensures s2.tasks[t].cut { GraceCutsTheLate(s, t); }
  }

  lemma TaskStepRounds(s: State, step: Step)
    requires Inv(s) && Rounded(s) && Enabled(s, step)
    requires step.Submits? || step.Grants? || step.Begins? || step.Settles? || step.Completes?
    ensures Rounded(Apply(s, step))
  {
    if step.Begins? { assert TaskOk(s, step.t); }
  }

  lemma ReachableRounds(workers: nat, steps: seq<Step>)
    ensures Inv(Ran(workers, steps)) && Rounded(Ran(workers, steps))
  {
    var inv := (s: State) => Inv(s) && Rounded(s);
    assert Inv(Start(workers));
    forall s, step | inv(s) ensures inv(Next(s, step)) {
      StepKeeps(s, step);
      if Enabled(s, step) {
        if step.Submits? || step.Grants? || step.Begins? || step.Settles? || step.Completes? {
          TaskStepRounds(s, step);
        } else {
          StopStepRounds(s, step);
        }
      }
    }
    ReachedKeeps(Next, inv, Start(workers), steps);
  }

  /** Over every run, the end of the grace period cuts every handler that runs then. */
  lemma NoHandlerOutlivesTheGrace(workers: nat, steps: seq<Step>, t: nat)
    requires var s := Ran(workers, steps); Enabled(s, Grace) && t < |s.tasks| && s.tasks[t].stage == Running
    ensures var s2 := Next(Ran(workers, steps), Grace);
            t < |s2.tasks| && s2.tasks[t].cut && (s2.tasks[t].settled == Unsettled ==> t in Owed(s2.stopping))
  {
    ReachableRounds(workers, steps);
    GraceCutsTheLate(Ran(workers, steps), t);
    StepKeeps(Ran(workers, steps), Grace);
    assert TaskOk(Next(Ran(workers, steps), Grace), t);
  }

  /** When the stop returns, every delivery ever submitted has been dealt with: its handler ran to its end, or the
      message is settled, by the handler or by one requeue. */
  lemma StopLeavesNothing(workers: nat, steps: seq<Step>, t: nat)
    requires Ran(workers, steps).stopping == Stopped && t < |Ran(workers, steps).tasks|
    ensures var k := Ran(workers, steps).tasks[t];
            && (!k.cut ==> k.ran && k.stage == Done)
            && (k.stage == Done || k.settled == ByHandler || (k.settled == ByPool && k.nacks == 1))
  {
    ReachableRounds(workers, steps);
    assert TaskOk(Ran(workers, steps), t);
  }

  // ---------------------------------------------------------------- nobody is stuck

  /** A message is settled only by its handler while that runs, or by the stop when its turn on the list comes. */
  lemma SettledOnlyBy(s: State, step: Step, t: nat)
    requires Inv(s) && Enabled(s, step) && t < |s.tasks|
    ensures t < |Apply(s, step).tasks|
    ensures Apply(s, step).tasks[t].settled != s.tasks[t].settled ==>
              && s.tasks[t].settled == Unsettled
              && match Apply(s, step).tasks[t].settled
                 case ByHandler => step == Settles(t) && s.tasks[t].stage == Running
                 case ByPool =>
                   (step == NacksReleased || step == NacksCut) && Owed(s.stopping) != [] && Owed(s.stopping)[0] == t
                 case Unsettled => false
  {
    if step == Stops {
      StopCutsTheQueued(s, t);
    } else if step == Grace {
      LateBelow(s, s.stopping.started);
      CancelFrame(s.tasks, Late(s, s.stopping.started));
    }
  }

  /** Every task that is not at its end can take its next step, a queued one as soon as a slot is free; anybody may
      submit, a handler may settle its message, and the pool can be stopped. */
  lemma NobodyIsStuck(s: State, t: nat, settled: bool)
    requires Inv(s) && t < |s.tasks|
    ensures Enabled(s, Submits(settled)) && (s.stopping == Not ==> Enabled(s, Stops))
    ensures match s.tasks[t].stage
            case Queued => InUse(s.tasks) < s.workers ==> Next(s, Grants(t)).tasks[t].stage == Granted
            case Granted => Next(s, Begins(t)).tasks[t].stage == Running && Next(s, Begins(t)).tasks[t].ran
            case Running =>
              && Next(s, Completes(t)).tasks[t] == s.tasks[t].(stage := Done)
              && (s.tasks[t].settled == Unsettled ==> Next(s, Settles(t)).tasks[t] == s.tasks[t].(settled := ByHandler))
            case Leaving(_) => Next(s, Completes(t)).tasks[t] == s.tasks[t].(stage := Done)
            case _ => true
  {
  }

  /** The step the stop itself takes next. */
  function Onward(p: Stopping): Step
    requires p != Not && p != Stopped
  {
    match p
    case Releasing(_) => Released
    case Returning(_) => NacksReleased
    case Waiting(_) => Grace
    case Joining(_) => Joined
    case Cutting(_) => NacksCut
  }

  /** How many of them it can still need. */
  function Togo(s: State): nat {
    match s.stopping
    case Releasing(q) => |q| + RunningNow(s.tasks) + 5
    case Returning(q) => |q| + RunningNow(s.tasks) + 4
    case Waiting(started) => |started| + 3
    case Joining(q) => |q| + 2
    case Cutting(q) => |q| + 1
    case _ => 0
  }

  lemma {:induction false} SelectCounts(ts: seq<Task>, n: nat)
    requires n <= |ts|
    ensures |Select(ts, n, IsRunning)| == RunningNow(ts[..n])
  {
    if n > 0 {
      SelectCounts(ts, n - 1);
      assert ts[..n][..n - 1] == ts[..n - 1];
    }
  }

  lemma {:induction false} LateIsFewer(s: State, started: seq<nat>)
    ensures |Late(s, started)| <= |started|
  {
    if started != [] { LateIsFewer(s, started[1..]); }
  }

  lemma {:induction false} RunningUpdate(ts: seq<Task>, t: nat, to: Task)
    requires t < |ts| && (to.stage == Running ==> ts[t].stage == Running)
    ensures RunningNow(ts[t := to]) <= RunningNow(ts)
    ensures to.stage == ts[t].stage ==> RunningNow(ts[t := to]) == RunningNow(ts)
  {
    var n := |ts| - 1;
    assert ts[t := to][..n] == if t < n then ts[..n][t := to] else ts[..n];
    if t < n { RunningUpdate(ts[..n], t, to); }
  }

  lemma ReturnIsNearer(s: State, q: seq<nat>)
    requires s.stopping == Returning(q) && Below(q, |s.tasks|)
    ensures var s2 := Apply(s, NacksReleased); s2.stopping != Not && Togo(s2) < Togo(s)
  {
    if q == [] {
      SelectCounts(s.tasks, |s.tasks|);
      assert s.tasks[..|s.tasks|] == s.tasks;
    } else {
      RunningUpdate(s.tasks, q[0], Nack(s.tasks[q[0]]));
    }
  }

  lemma GraceIsNearer(s: State, started: seq<nat>)
    requires s.stopping == Waiting(started)
    ensures var s2 := Apply(s, Grace); s2.stopping != Not && Togo(s2) < Togo(s)
  {
    LateIsFewer(s, started);
  }

  /** The stop can always go on, and every step of its own brings it nearer to its return. */
  lemma OnwardIsNearer(s: State)
    requires OwedOk(s) && s.stopping != Not && s.stopping != Stopped
    ensures Enabled(s, Onward(s.stopping))
    ensures var s2 := Apply(s, Onward(s.stopping)); s2.stopping != Not && Togo(s2) < Togo(s)
  {
    assert Below(Owed(s.stopping), |s.tasks|);
    match s.stopping
    case Returning(q) => ReturnIsNearer(s, q);
    case Waiting(started) => GraceIsNearer(s, started);
    case _ =>
  }

  lemma SubmitRunsNobody(s: State, settled: bool)
    requires s.stopping != Not
    ensures RunningNow(Submit(s, settled).tasks) == RunningNow(s.tasks)
  {
    var ts := Submit(s, settled).tasks;
    assert ts[..|ts| - 1] == s.tasks;
  }

  /** Nothing starts any more once the pool is stopping. */
  lemma NothingStarts(s: State, step: Step)
    requires (forall t :: 0 <= t < |s.tasks| ==> TaskOk(s, t)) && s.stopping != Not
    ensures step.Grants? || step.Begins? ==> !Enabled(s, step)
  {
    if (step.Grants? || step.Begins?) && step.t < |s.tasks| { assert TaskOk(s, step.t); }
  }

  /** ... and no other step takes it further away. */
  lemma OthersDoNotDelay(s: State, step: Step)
    requires Inv(s) && s.stopping != Not && s.stopping != Stopped && step != Onward(s.stopping)
    ensures Next(s, step).stopping == s.stopping && Togo(Next(s, step)) <= Togo(s)
  {
    NothingStarts(s, step);
    if Enabled(s, step) { RunningFalls(s, step); }
  }

  lemma RunningFalls(s: State, step: Step)
    requires Enabled(s, step) && s.stopping != Not && (step.Submits? || step.Settles? || step.Completes?)
    ensures Apply(s, step).stopping == s.stopping && RunningNow(Apply(s, step).tasks) <= RunningNow(s.tasks)
  {
    match step
    case Submits(settled) => SubmitRunsNobody(s, settled);
    case Settles(t) => RunningUpdate(s.tasks, t, s.tasks[t].(settled := ByHandler));
    case Completes(t) => RunningUpdate(s.tasks, t, s.tasks[t].(stage := Done));
  }

  /** So from every state of every run in which the pool is stopping, the stop can return, within a bound that depends
      only on the deliveries it has in hand and that nobody else can raise. */
  lemma {:induction false} StopCanReturn(s: State) returns (more: seq<Step>)
    requires Inv(s) && s.stopping != Not
    ensures |more| <= Togo(s) && Reached(Next, s, more).stopping == Stopped
    decreases Togo(s)
  {
    more := [];
    if s.stopping != Stopped {
      var step := Onward(s.stopping);
      OnwardIsNearer(s);
      StepKeeps(s, step);
      var rest := StopCanReturn(Next(s, step));
      more := [step] + rest;
      ReachedConcat(Next, s, [step], rest);
      ReachedSnoc(Next, s, [], step);
      assert [] + [step] == [step];
    }
  }

  // ---------------------------------------------------------------- the object

  function NackEach(s: State, rest: seq<nat>): State
    requires Below(rest, |s.tasks|)
    decreases |rest|
  {
    if rest == [] then s else NackEach(NackHead(s, rest), rest[1..])
  }

  class AsyncWorkerPool {
    const workers: nat
    var slots: int
    var tasks: seq<Task>
    var stopping: Stopping

    function Now(): State
      reads this
    {
      State(workers, slots, tasks, stopping)
    }

    constructor (workers: nat)
      ensures Now() == Start(workers)
    {
      this.workers, slots, tasks, stopping := workers, workers, [], Not;
    }

    method SubmitDelivery(settled: bool)
      requires Inv(Now())
      modifies this`tasks
      ensures Now() == Submit(old(Now()), settled) && Inv(Now())
    {
      SubmitKeeps(Now(), settled);
      var was := if settled then ByHandler else Unsettled;
      if stopping == Not {
        tasks := tasks + [Task(Queued, was, false, false, 0)];
      } else {
        var turned := Task(Turned, was, false, true, 0);
        if turned.settled == Unsettled { turned := turned.(settled := ByPool, nacks := 1); }
        tasks := tasks + [turned];
      }
    }

    method CancelAll(ns: seq<nat>)
      requires Below(ns, |tasks|)
      modifies this`tasks
      ensures tasks == CancelEach(old(tasks), ns)
    {
      var rest := ns;
      while rest != []
        invariant Below(rest, |tasks|) && CancelEach(tasks, rest) == CancelEach(old(tasks), ns)
        decreases |rest|
      {
        var n := rest[0];
        ghost var before := tasks;
        if tasks[n].stage == Queued || tasks[n].stage == Granted {
          tasks := tasks[n := tasks[n].(stage := Leaving(tasks[n].stage == Granted), cut := true)];
        } else if tasks[n].stage == Running {
          tasks := tasks[n := tasks[n].(cut := true)];
        }
        assert tasks == before[n := Cancel(before[n])];
        rest := rest[1..];
      }
    }

    /** `stop` up to its first wait. */
    method Begin()
      requires Inv(Now()) && stopping == Not
      modifies this`tasks, this`stopping
      ensures Now() == BeginStop(old(Now())) && Inv(Now()) && |tasks| == |old(tasks)|
      ensures forall t :: 0 <= t < |tasks| ==> (tasks[t].cut <==> old(tasks)[t].cut || NotStarted(old(tasks)[t]))
    {
      BeginStopKeeps(Now());
      StopCuts(Now());
      SelectBelow(tasks, |tasks|, NotStarted);
      var queued := Select(tasks, |tasks|, NotStarted);
      if queued == [] {
        var started := Select(tasks, |tasks|, IsRunning);
        stopping := if started == [] then Stopped else Waiting(started);
      } else {
        CancelAll(queued);
        stopping := Releasing(queued);
      }
    }

    /** The grace period is over. */
    method CutLate()
      requires Inv(Now()) && stopping.Waiting?
      modifies this`tasks, this`stopping
      ensures Now() == EndWait(old(Now()), old(stopping).started) && Inv(Now()) && |tasks| == |old(tasks)|
      ensures forall t :: t in old(stopping).started && t < |tasks| && old(tasks)[t].stage == Running ==> tasks[t].cut
    {
      EndWaitKeeps(Now());
      LateBelow(Now(), stopping.started);
      CancelFrame(tasks, Late(Now(), stopping.started));
      var pending := Late(Now(), stopping.started);
      if pending == [] { stopping := Stopped; } else { CancelAll(pending); stopping := Joining(pending); }
    }

    /** Requeue what is unsettled on a list, with nobody else running. */
    method NackAll(ns: seq<nat>)
      requires Below(ns, |tasks|)
      modifies this`tasks
      ensures Now() == NackEach(old(Now()), ns)
    {
      var rest := ns;
      while rest != []
        invariant Below(rest, |tasks|) && NackEach(Now(), rest) == NackEach(old(Now()), ns)
        decreases |rest|
      {
        ghost var before := Now();
        var k := tasks[rest[0]];
        if k.settled == Unsettled { tasks := tasks[rest[0] := k.(settled := ByPool, nacks := k.nacks + 1)]; }
        assert Now().tasks == NackHead(before, rest).tasks;
        rest := rest[1..];
      }
    }
  }
}
