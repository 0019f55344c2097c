/** The batch publisher's guarantees over whole runs: every interleaving of callers, timers, workers and stop. */
module BatchRuns {
  import opened Common
  import opened BatchState
  import opened BatchProofs

  // ---------------------------------------------------------------- how one item evolves

  function Rank(p: Phase): nat { match p case Queued => 0 case Flushing => 1 case Done => 2 }

  /** Nothing about an item is ever taken back. */
  ghost predicate Evolves(a: Item, b: Item) {
    && b.size == a.size && Rank(a.phase) <= Rank(b.phase)
    && (a.final.Some? ==> b.final == a.final)
    && (a.sent ==> b.sent) && (b.sent && a.phase == Done ==> a.sent)
    && (a.caller.Answered? || a.caller == Withdrawn ==> b.caller == a.caller)
    && (a.entry.Finished? || a.entry == Raised ==> b.entry == a.entry && b.enqueued == a.enqueued)
    && (a.enqueued ==> b.enqueued)
  }

  lemma {:induction false} FinishEachEvolves(s: State, ids: seq<nat>, outcomes: seq<Outcome>, k: nat)
    requires |ids| == |outcomes| && Below(ids, |s.items|) && k < |s.items|
             && (s.items[k].final.Some? ==> s.items[k].phase == Done)
    ensures var it := FinishEach(s, ids, outcomes).items[k];
            Evolves(s.items[k], it) && (it.final.Some? ==> it.phase == Done) && it.sent == s.items[k].sent
            && it.entry == s.items[k].entry
    decreases |ids|
  {
    var n := |ids|;
    if n > 0 { FinishEachEvolves(s, ids[..n - 1], outcomes[..n - 1], k); }
  }

  lemma {:induction false} MarkEachEvolves(s: State, ids: seq<nat>, late: set<nat>, k: nat)
    requires Below(ids, |s.items|) && k < |s.items| && (s.items[k].final.Some? ==> s.items[k].phase == Done)
    ensures var it := MarkEach(s, ids, late).items[k];
            Evolves(s.items[k], it) && (it.final.Some? ==> it.phase == Done) && it.sent == s.items[k].sent
            && it.entry == s.items[k].entry
    decreases |ids|
  {
    var n := |ids|;
    if n > 0 { MarkEachEvolves(s, ids[..n - 1], late, k); }
  }

  lemma BeginEvolves(s: State, size: nat, k: nat)
    requires ItemsOk(s) && k < |s.items|
    ensures k < |BeginPublish(s, size).items| && BeginPublish(s, size).items[k] == s.items[k]
  {
  }

  lemma CallerTouchesOwn(s: State, step: Step, k: nat)
    requires CallerSide(step) && CallerEnabled(s, step) && !step.Begin? && k < |s.items| && k != step.i
    ensures k < |CallerStep(s, step).items| && CallerStep(s, step).items[k] == s.items[k]
  {
  }

  lemma CallerOwnEvolves(s: State, step: Step)
    requires CallerSide(step) && CallerEnabled(s, step) && !step.Begin? && ItemOk(s.items[step.i])
    ensures step.i < |CallerStep(s, step).items| && Evolves(s.items[step.i], CallerStep(s, step).items[step.i])
    ensures CallerStep(s, step).items[step.i].sent == s.items[step.i].sent
  {
  }

  lemma CallerStepEvolves(s: State, step: Step, k: nat)
    requires ItemsOk(s) && CallerSide(step) && CallerEnabled(s, step) && k < |s.items|
    ensures k < |CallerStep(s, step).items| && Evolves(s.items[k], CallerStep(s, step).items[k])
    ensures CallerStep(s, step).items[k].sent == s.items[k].sent
  {
    if step.Begin? { BeginEvolves(s, step.size, k); }
    else if k == step.i { CallerOwnEvolves(s, step); }
    else { CallerTouchesOwn(s, step, k); }
  }

  lemma ReplacedEvolves(s: State, w: nat, outcomes: seq<Outcome>, place: Place, discard: bool, k: nat)
    requires Housed(s) && w < |s.workers| && |outcomes| == |s.workers[w].batch| && k < |s.items|
    requires s.items[k].final.Some? ==> s.items[k].phase == Done
    ensures var s1 := FinishEach(s, s.workers[w].batch, outcomes);
            s1.workers == s.workers && Evolves(s.items[k], GiveBack(ClearBatch(s1, w, place), w, discard).items[k])
            && GiveBack(ClearBatch(s1, w, place), w, discard).items[k].sent == s.items[k].sent
  {
    FinishEachFrame(s, s.workers[w].batch, outcomes);
    FinishEachEvolves(s, s.workers[w].batch, outcomes, k);
    var s1 := FinishEach(s, s.workers[w].batch, outcomes);
    assert GiveBack(ClearBatch(s1, w, place), w, discard).items == ClearBatch(s1, w, place).items;
  }

  lemma GivenUpEvolves(s: State, w: nat, k: nat)
    requires Housed(s) && w < |s.workers| && k < |s.items| && (s.items[k].final.Some? ==> s.items[k].phase == Done)
    ensures k < |FailAll(s, w).items| && Evolves(s.items[k], FailAll(s, w).items[k])
    ensures FailAll(s, w).items[k].sent == s.items[k].sent
  {
    FinishEachEvolves(s, s.workers[w].batch, Same(|s.workers[w].batch|, Own(NotSent, ChannelUnavailable)), k);
  }

  lemma FinishStepEvolves(s: State, step: Step, k: nat)
    requires ItemsOk(s) && Housed(s) && !CallerSide(step) && WorkerEnabled(s, step) && k < |s.items|
    requires step.GiveUp? || step.StartFlush? || step.Resolve? || step.FlushCrash? || step.CancelWorker?
    ensures k < |WorkerStep(s, step).items| && Evolves(s.items[k], WorkerStep(s, step).items[k])
    ensures !step.Transmit? ==> WorkerStep(s, step).items[k].sent == s.items[k].sent
  {
    assert ItemOk(s.items[k]);
    match step
    case GiveUp(w) => GivenUpEvolves(s, w, k);
    case StartFlush(w, late) => MarkEachEvolves(s, s.workers[w].batch, late, k);
    case Resolve(w, live, outcomes) => FinishEachEvolves(s, live, outcomes, k);
    case FlushCrash(w) => ReplacedEvolves(s, w, CrashOutcomes(s.items, s.workers[w].batch), Collecting, true, k);
    case CancelWorker(w) =>
      ReplacedEvolves(s, w, ShutdownOutcomes(s.items, s.workers[w].batch), Gone, MidFlush(s, w), k);
  }

  lemma DrainEvolves(s: State, left: seq<nat>, k: nat)
    requires ItemsOk(s) && Housed(s) && Below(left, |s.items|) && k < |s.items|
    ensures Evolves(s.items[k], DrainAll(s, left).items[k]) && DrainAll(s, left).items[k].sent == s.items[k].sent
  {
    assert ItemOk(s.items[k]);
    var outs := ShutdownOutcomes(s.items, left);
    FinishEachEvolves(s, left, outs, k);
    FinishEachFrame(s, left, outs);
    FinishEachEvolves(FinishEach(s, left, outs), s.pending, Same(|s.pending|, Own(NotSent, PublisherClosed)), k);
  }

  lemma WorkerStepEvolves(s: State, step: Step, k: nat)
    requires ItemsOk(s) && Housed(s) && !CallerSide(step) && WorkerEnabled(s, step) && k < |s.items|
    ensures k < |WorkerStep(s, step).items| && Evolves(s.items[k], WorkerStep(s, step).items[k])
    ensures !step.Transmit? ==> WorkerStep(s, step).items[k].sent == s.items[k].sent
  {
    if step.GiveUp? || step.StartFlush? || step.Resolve? || step.FlushCrash? || step.CancelWorker? {
      FinishStepEvolves(s, step, k);
    } else if step.StopDrain? {
      DrainEvolves(s, step.left, k);
    } else {
      PlainStepEvolves(s, step, k);
    }
  }

  lemma PlainStepEvolves(s: State, step: Step, k: nat)
    requires ItemsOk(s) && Housed(s) && !CallerSide(step) && WorkerEnabled(s, step) && k < |s.items|
    requires !step.GiveUp? && !step.StartFlush? && !step.Resolve? && !step.FlushCrash? && !step.CancelWorker?
    requires !step.StopDrain?
    ensures k < |WorkerStep(s, step).items| && Evolves(s.items[k], WorkerStep(s, step).items[k])
    ensures !step.Transmit? ==> WorkerStep(s, step).items[k].sent == s.items[k].sent
  {
    assert ItemOk(s.items[k]);
  }

  lemma StepEvolves(s: State, step: Step, k: nat)
    requires ItemsOk(s) && Enabled(s, step) && k < |s.items|
    ensures k < |Apply(s, step).items| && Evolves(s.items[k], Apply(s, step).items[k])
    ensures !step.Transmit? ==> Apply(s, step).items[k].sent == s.items[k].sent
  {
    if CallerSide(step) { CallerStepEvolves(s, step, k); } else { WorkerStepEvolves(s, step, k); }
  }

  lemma WorkerStepCount(s: State, step: Step)
    requires Housed(s) && !CallerSide(step) && WorkerEnabled(s, step)
    ensures |WorkerStep(s, step).items| == |s.items|
  {
    if step.StopDrain? { FinishEachFrame(s, step.left, ShutdownOutcomes(s.items, step.left)); }
  }

  /** Only `Transmit` hands anything to the transport; a new item has not been sent. */
  lemma NewIsUnsent(s: State, step: Step, k: nat)
    requires Enabled(s, step) && |s.items| <= k < |Apply(s, step).items|
    ensures !Apply(s, step).items[k].sent
  {
    if CallerSide(step) { assert step.Begin?; } else { WorkerStepCount(s, step); }
  }

  // ---------------------------------------------------------------- runs

  ghost predicate Next(s: State, step: Step, s': State) { Enabled(s, step) && s' == Apply(s, step) }

  ghost predicate Run(states: seq<State>, steps: seq<Step>) {
    && |states| == |steps| + 1
    && ValidConfig(states[0].cfg) && states[0] == Init(states[0].cfg)
    && forall i {:trigger Next(states[i], steps[i], states[i + 1])} :: 0 <= i < |steps| ==>
       Next(states[i], steps[i], states[i + 1])
  }

  lemma NextKeeps(s: State, step: Step, s': State)
    requires Inv(s) && Next(s, step, s')
    ensures Inv(s')
  {
    StepKeeps(s, step);
  }

  lemma KeepsAt(states: seq<State>, steps: seq<Step>, n: nat)
    requires Run(states, steps) && n < |steps| && Inv(states[n])
    ensures Inv(states[n + 1])
  {
    assert Next(states[n], steps[n], states[n + 1]);
    NextKeeps(states[n], steps[n], states[n + 1]);
  }

  lemma StepAt(states: seq<State>, steps: seq<Step>, n: nat)
    requires Run(states, steps) && n < |steps|
    ensures Enabled(states[n], steps[n]) && states[n + 1] == Apply(states[n], steps[n])
  {
    assert Next(states[n], steps[n], states[n + 1]);
  }

  lemma {:induction false} RunKeeps(states: seq<State>, steps: seq<Step>, n: nat)
    requires Run(states, steps) && n < |states|
    ensures Inv(states[n])
  {
    if n == 0 {
      InitOk(states[0].cfg);
    } else {
      RunKeeps(states, steps, n - 1);
      KeepsAt(states, steps, n - 1);
    }
  }

  lemma EvolvesAt(states: seq<State>, steps: seq<Step>, n: nat, k: nat)
    requires Run(states, steps) && n < |steps| && k < |states[n].items|
    ensures k < |states[n + 1].items| && Evolves(states[n].items[k], states[n + 1].items[k])
  {
    RunKeeps(states, steps, n);
    StepAt(states, steps, n);
    StepEvolves(states[n], steps[n], k);
  }

  lemma {:induction false} RunEvolves(states: seq<State>, steps: seq<Step>, m: nat, n: nat, k: nat)
    requires Run(states, steps) && m <= n < |states| && k < |states[m].items|
    ensures k < |states[n].items| && Evolves(states[m].items[k], states[n].items[k])
    decreases n - m
  {
    if m < n {
      RunEvolves(states, steps, m, n - 1, k);
      EvolvesAt(states, steps, n - 1, k);
    }
  }

  // ---------------------------------------------------------------- theorems

  /** NOT_SENT is truthful: an item this class resolves as NOT_SENT at any point of a run is not handed to the
      transport at any other point, earlier or later. */
  lemma NotSentIsTruthful(states: seq<State>, steps: seq<Step>, m: nat, n: nat, k: nat)
    requires Run(states, steps) && m < |states| && n < |states| && k < |states[m].items| && k < |states[n].items|
    requires states[m].items[k].final.Some? && ClaimsNotSent(states[m].items[k].final.value)
    ensures !states[n].items[k].sent
  {
    RunKeeps(states, steps, m);
    RunKeeps(states, steps, n);
    assert ItemOk(states[m].items[k]) && ItemOk(states[n].items[k]);
    if m <= n { RunEvolves(states, steps, m, n, k); } else { RunEvolves(states, steps, n, m, k); }
  }

  /** So is what a caller is told: a `publish()` that returned NOT_SENT was never handed to the transport. */
  lemma ReturnedNotSentIsTruthful(states: seq<State>, steps: seq<Step>, m: nat, n: nat, k: nat)
    requires Run(states, steps) && m < |states| && n < |states| && k < |states[m].items| && k < |states[n].items|
    requires states[m].items[k].entry.Finished? && ClaimsNotSent(states[m].items[k].entry.outcome)
    ensures !states[n].items[k].sent
  {
    RunKeeps(states, steps, m);
    RunKeeps(states, steps, n);
    var a, b := states[m].items[k], states[n].items[k];
    assert ItemOk(a) && ItemOk(b);
    if a.enqueued {
      NotSentIsTruthful(states, steps, m, n, k);
    } else if m <= n {
      RunEvolves(states, steps, m, n, k);
    } else {
      RunEvolves(states, steps, n, m, k);
    }
  }

  /** The final outcome is set once and the caller's future at most once, and the caller sees the final
      outcome unless its deadline passed during the flush; then the item was not withdrawn. */
  lemma CallerSeesFinal(states: seq<State>, steps: seq<Step>, m: nat, n: nat, k: nat)
    requires Run(states, steps) && m <= n < |states| && k < |states[m].items|
    ensures k < |states[n].items|
    ensures states[m].items[k].final.Some? ==> states[n].items[k].final == states[m].items[k].final
    ensures states[m].items[k].caller.Answered? ==> states[n].items[k].caller == states[m].items[k].caller
    ensures var it := states[n].items[k];
            it.entry.Finished? && it.enqueued && it.final.Some? ==>
              it.entry.outcome == it.final.value || (it.entry.outcome == TIMED_OUT && !ClaimsNotSent(it.final.value))
  {
    RunEvolves(states, steps, m, n, k);
    RunKeeps(states, steps, n);
    assert ItemOk(states[n].items[k]);
  }

  /** Every enqueued item that is not resolved is in exactly one place: once in the queue, or once in exactly one
      worker's batch, and then `active` has it. */
  lemma OwnedOnce(states: seq<State>, steps: seq<Step>, n: nat, k: nat)
    requires Run(states, steps) && n < |states| && k < |states[n].items|
    requires states[n].items[k].enqueued && states[n].items[k].phase != Done
    ensures var s := states[n];
            && (k in s.pending <==> !exists w :: 0 <= w < |s.workers| && k in s.workers[w].batch)
            && (forall v, w :: 0 <= v < |s.workers| && 0 <= w < |s.workers| ==>
                  k in s.workers[v].batch && k in s.workers[w].batch ==> v == w)
            && (k in s.active <==> exists w :: 0 <= w < |s.workers| && k in s.workers[w].batch)
            && NoRepeats(s.pending) && (forall w :: 0 <= w < |s.workers| ==> NoRepeats(s.workers[w].batch))
  {
    RunKeeps(states, steps, n);
    var s := states[n];
    assert ItemOk(s.items[k]) && PlaceOk(s, s.items[k]);
    forall w | 0 <= w < |s.workers|
      ensures (k in s.workers[w].batch <==> s.items[k].holder == InBatch(w)) && NoRepeats(s.workers[w].batch)
    {
      assert BatchOk(s, w);
    }
  }

  /** The byte budget is conserved, stays within the limit, and is empty when nothing is in progress. */
  lemma BytesConserved(states: seq<State>, steps: seq<Step>, n: nat)
    requires Run(states, steps) && n < |states|
    ensures states[n].used == HeldBytes(states[n].items)
    ensures states[n].cfg.byteLimit.Some? ==> states[n].used <= states[n].cfg.byteLimit.value
    ensures (forall k :: 0 <= k < |states[n].items| ==>
               states[n].items[k].entry != Granted && (states[n].items[k].enqueued ==> states[n].items[k].phase == Done)
               && states[n].items[k].entry != Putting) ==> states[n].used == 0
  {
    RunKeeps(states, steps, n);
    var items := states[n].items;
    assert forall k :: 0 <= k < |items| ==> ItemOk(items[k]);
    if forall k :: 0 <= k < |items| ==>
      items[k].entry != Granted && (items[k].enqueued ==> items[k].phase == Done) && items[k].entry != Putting
    {
      HeldNothing(items);
    }
  }

  lemma {:induction false} HeldNothing(items: seq<Item>)
    requires forall k :: 0 <= k < |items| ==> Held(items[k]) == 0
    ensures HeldBytes(items) == 0
  {
    if items != [] { HeldNothing(items[..|items| - 1]); }
  }

  /** The deadline timer always answers: after it fires no caller is left waiting. */
  lemma DeadlineAnswers(states: seq<State>, steps: seq<Step>, n: nat, i: nat)
    requires Run(states, steps) && n < |states| && Enabled(states[n], Expire(i))
    ensures Apply(states[n], Expire(i)).items[i].caller in {Withdrawn}
            || Apply(states[n], Expire(i)).items[i].caller.Answered?
    ensures states[n].items[i].phase == Queued ==>
              Apply(states[n], Expire(i)).items[i].final == Some(Own(NotSent, AdmissionTimeout))
  {
    RunKeeps(states, steps, n);
    assert ItemOk(states[n].items[i]);
  }

  /** Cancelling a worker resolves its batch: what is already resolved stays, what may be on the wire is UNKNOWN,
      what is still queued is NOT_SENT. */
  lemma CancelResolves(states: seq<State>, steps: seq<Step>, n: nat, w: nat, k: nat)
    requires Run(states, steps) && n < |states| && Enabled(states[n], CancelWorker(w))
             && k in states[n].workers[w].batch
    ensures k < |states[n].items| && k < |Apply(states[n], CancelWorker(w)).items|
    ensures Apply(states[n], CancelWorker(w)).items[k].final ==
              match states[n].items[k].phase
              case Queued => Some(Own(NotSent, PublisherClosed))
              case Flushing => Some(Own(Unknown, Shutdown))
              case Done => states[n].items[k].final
  {
    RunKeeps(states, steps, n);
    var s := states[n];
    var b := s.workers[w].batch;
    assert BatchOk(s, w);
    var j :| 0 <= j < |b| && b[j] == k;
    FinishEachHits(s, b, ShutdownOutcomes(s.items, b), j);
    FinishEachFrame(s, b, ShutdownOutcomes(s.items, b));
    var s1 := FinishEach(s, b, ShutdownOutcomes(s.items, b));
    assert GiveBack(ClearBatch(s1, w, Gone), w, MidFlush(s, w)).items == ClearBatch(s1, w, Gone).items;
  }

  lemma StoppedStays(s: State, step: Step)
    requires WorkersOk(s) && Enabled(s, step) && s.stopped
    ensures Apply(s, step).stopped && !step.Transmit?
  {
    if !CallerSide(step) { StoppedWorkers(s, step); }
  }

  /** With every worker ended only `stop()` itself can still take a step. */
  lemma StoppedWorkers(s: State, step: Step)
    requires WorkersOk(s) && s.stopped && Housed(s) && !CallerSide(step) && WorkerEnabled(s, step)
    ensures step.StopBegin? || step.StopDrain?
  {
  }

  lemma StaysStoppedAt(states: seq<State>, steps: seq<Step>, n: nat)
    requires Run(states, steps) && n < |steps| && states[n].stopped
    ensures states[n + 1].stopped
  {
    RunKeeps(states, steps, n);
    StepAt(states, steps, n);
    StoppedStays(states[n], steps[n]);
  }

  lemma {:induction false} RunStaysStopped(states: seq<State>, steps: seq<Step>, m: nat, n: nat)
    requires Run(states, steps) && m <= n < |states| && states[m].stopped
    ensures states[n].stopped
    decreases n - m
  {
    if m < n {
      RunStaysStopped(states, steps, m, n - 1);
      StaysStoppedAt(states, steps, n - 1);
    }
  }

  lemma DrainedAt(states: seq<State>, steps: seq<Step>, m: nat, k: nat)
    requires Run(states, steps) && m < |steps| && steps[m].StopDrain? && k < |states[m].items|
             && states[m].items[k].enqueued
    ensures k < |states[m + 1].items| && states[m + 1].items[k].phase == Done && states[m + 1].items[k].final.Some?
    ensures states[m].items[k].phase == Queued ==> states[m + 1].items[k].final == Some(Own(NotSent, PublisherClosed))
  {
    RunKeeps(states, steps, m);
    StepAt(states, steps, m);
    assert ItemOk(states[m].items[k]);
    DrainResolves(states[m], steps[m].left, k);
    EvolvesAt(states, steps, m, k);
  }

  /** When `stop()` returns, every item enqueued so far is resolved, for good. */
  lemma StopIsComplete(states: seq<State>, steps: seq<Step>, m: nat, n: nat, k: nat)
    requires Run(states, steps) && m < n < |states| && steps[m].StopDrain? && k < |states[m].items|
             && states[m].items[k].enqueued
    ensures k < |states[n].items| && states[n].items[k].phase == Done && states[n].items[k].final.Some?
    ensures states[m].items[k].phase == Queued ==> states[n].items[k].final == Some(Own(NotSent, PublisherClosed))
  {
    DrainedAt(states, steps, m, k);
    RunEvolves(states, steps, m + 1, n, k);
  }

  lemma StepSends(s: State, step: Step, k: nat)
    requires ItemsOk(s) && WorkersOk(s) && Enabled(s, step) && s.stopped
    requires k < |Apply(s, step).items| && Apply(s, step).items[k].sent
    ensures k < |s.items| && s.items[k].sent
  {
    StoppedStays(s, step);
    if k < |s.items| { StepEvolves(s, step, k); } else { NewIsUnsent(s, step, k); }
  }

  lemma SentBefore(states: seq<State>, steps: seq<Step>, n: nat, k: nat)
    requires Run(states, steps) && n < |steps| && states[n].stopped && k < |states[n + 1].items|
             && states[n + 1].items[k].sent
    ensures k < |states[n].items| && states[n].items[k].sent
  {
    RunKeeps(states, steps, n);
    StepAt(states, steps, n);
    StepSends(states[n], steps[n], k);
  }

  /** Afterwards nothing reaches the transport. */
  lemma {:induction false} NothingSentAfterStop(states: seq<State>, steps: seq<Step>, m: nat, n: nat, k: nat)
    requires Run(states, steps) && m <= n < |states| && states[m].stopped && k < |states[n].items|
             && states[n].items[k].sent
    ensures k < |states[m].items| && states[m].items[k].sent
    decreases n - m
  {
    if m < n {
      RunStaysStopped(states, steps, m, n - 1);
      SentBefore(states, steps, n - 1, k);
      NothingSentAfterStop(states, steps, m, n - 1, k);
    }
  }

  /** The item is in the queue of a publisher that has stopped. */
  ghost predicate Late(s: State, k: nat) {
    s.stopped && k < |s.items| && s.items[k].enqueued && s.items[k].phase != Done
  }

  /** What can resolve it: its own deadline, its own caller's cancellation, or another stop. */
  predicate Resolves(step: Step, k: nat) { step == Expire(k) || step == CancelDeliver(k) || step.StopDrain? }

  lemma LateIsQueued(s: State, k: nat)
    requires Inv(s) && Late(s, k)
    ensures s.items[k].phase == Queued && Enabled(s, Expire(k))
    ensures Apply(s, Expire(k)).items[k].final == Some(Own(NotSent, AdmissionTimeout))
  {
    NothingActive(s);
    assert ItemOk(s.items[k]);
    HousedOk(s);
  }

  lemma LateCallerStep(s: State, step: Step, k: nat)
    requires Inv(s) && Late(s, k) && CallerSide(step) && CallerEnabled(s, step) && !Resolves(step, k)
    ensures Late(CallerStep(s, step), k)
  {
    assert ItemOk(s.items[k]);
  }

  lemma LateStep(s: State, step: Step, k: nat)
    requires Inv(s) && Late(s, k) && Enabled(s, step) && !Resolves(step, k)
    ensures Late(Apply(s, step), k)
  {
    if CallerSide(step) { LateCallerStep(s, step, k); } else { StoppedWorkers(s, step); }
  }

  lemma LateAt(states: seq<State>, steps: seq<Step>, n: nat, k: nat)
    requires Run(states, steps) && n < |steps| && Late(states[n], k) && !Resolves(steps[n], k)
    ensures Late(states[n + 1], k)
  {
    RunKeeps(states, steps, n);
    StepAt(states, steps, n);
    LateStep(states[n], steps[n], k);
  }

  /** A publish whose admission finishes after `stop()` stays queued and unsent along any run, until its own deadline
      timer, its own caller's cancellation or another stop; and the timer always can, and says NOT_SENT. */
  lemma LatePublishExpires(states: seq<State>, steps: seq<Step>, m: nat, n: nat, k: nat)
    requires Run(states, steps) && m <= n < |states| && Late(states[m], k)
    requires forall j :: m <= j < n ==> !Resolves(steps[j], k)
    ensures k < |states[n].items| && states[n].items[k].phase == Queued && states[n].items[k].final == None
    ensures Enabled(states[n], Expire(k))
            && Apply(states[n], Expire(k)).items[k].final == Some(Own(NotSent, AdmissionTimeout))
  {
    StaysLate(states, steps, m, n, k);
    RunKeeps(states, steps, n);
    LateIsQueued(states[n], k);
    assert ItemOk(states[n].items[k]);
  }

  lemma {:induction false} StaysLate(states: seq<State>, steps: seq<Step>, m: nat, n: nat, k: nat)
    requires Run(states, steps) && m <= n < |states| && Late(states[m], k)
    requires forall j :: m <= j < n ==> !Resolves(steps[j], k)
    ensures Late(states[n], k)
    decreases n - m
  {
    if m < n {
      StaysLate(states, steps, m, n - 1, k);
      LateAt(states, steps, n - 1, k);
    }
  }

  // ---------------------------------------------------------------- channels and the dequeue bound

  /** What giving a channel back does to the books. */
  lemma GiveBackCounts(s: State, w: nat, discard: bool, c: nat)
    requires ChannelsOk(s) && w < |s.workers| && c < |s.channels|
    ensures var s' := GiveBack(s, w, discard);
            && |s'.channels| == |s.channels|
            && (s.channels[c].holder != Some(w) ==> s'.channels[c] == s.channels[c])
            && (discard ==> s'.channels[c].releases == s.channels[c].releases)
  {
    assert ChannelOk(s, c);
  }

  ghost predicate ReleasedClean(s: State, s': State, c: nat)
    requires c < |s.channels|
  {
    && c < |s'.channels|
    && (s.channels[c].holder == None ==> s'.channels[c] == s.channels[c])
    && (s'.channels[c].releases > s.channels[c].releases ==>
          && s.channels[c].holder.Some? && s.channels[c].holder.value < |s.workers|
          && !MidFlush(s, s.channels[c].holder.value))
  }

  lemma EndWorkerReleases(s: State, w: nat, c: nat)
    requires Inv(s) && Housed(s) && w < |s.workers| && c < |s.channels|
    ensures ReleasedClean(s, EndWorker(s, w), c)
  {
    var b := s.workers[w].batch;
    var outs := ShutdownOutcomes(s.items, b);
    FinishEachFrame(s, b, outs);
    var s2 := ClearBatch(FinishEach(s, b, outs), w, Gone);
    SameChannels(s, s2);
    GiveBackCounts(s2, w, MidFlush(s, w), c);
    assert ChannelOk(s, c);
  }

  lemma CrashReleases(s: State, w: nat, c: nat)
    requires Inv(s) && Housed(s) && w < |s.workers| && c < |s.channels|
    ensures ReleasedClean(s, CrashFlush(s, w), c)
  {
    var b := s.workers[w].batch;
    var outs := CrashOutcomes(s.items, b);
    FinishEachFrame(s, b, outs);
    var s2 := ClearBatch(FinishEach(s, b, outs), w, Collecting);
    SameChannels(s, s2);
    GiveBackCounts(s2, w, true, c);
  }

  lemma CallerKeepsChannels(s: State, step: Step)
    requires CallerSide(step) && CallerEnabled(s, step)
    ensures CallerStep(s, step).channels == s.channels
  {
  }

  /** Resolving items and moving workers leave the channels alone. */
  lemma WorkerKeepsChannels(s: State, step: Step)
    requires Housed(s) && !CallerSide(step) && WorkerEnabled(s, step)
    requires step.GiveUp? || step.StartFlush? || step.Resolve? || step.StopDrain? || step.StopBegin? || step.Take?
             || step.Transmit?
             || step.EndCollect? || step.EndFlush? || step.OpenFailed?
    ensures WorkerStep(s, step).channels == s.channels
  {
    match step
    case GiveUp(w) =>
      FinishEachFrame(s, s.workers[w].batch, Same(|s.workers[w].batch|, Own(NotSent, ChannelUnavailable)));
    case StartFlush(w, late) => MarkEachFrame(s, s.workers[w].batch, late);
    case Resolve(w, live, outcomes) => FinishEachFrame(s, live, outcomes);
    case StopDrain(left) =>
      FinishEachFrame(s, left, ShutdownOutcomes(s.items, left));
      FinishEachFrame(FinishEach(s, left, ShutdownOutcomes(s.items, left)), s.pending,
                      Same(|s.pending|, Own(NotSent, PublisherClosed)));
    case _ =>
  }

  lemma StepReleasesClean(s: State, step: Step, c: nat)
    requires Inv(s) && Enabled(s, step) && c < |s.channels|
    ensures ReleasedClean(s, Apply(s, step), c)
  {
    if CallerSide(step) {
      CallerKeepsChannels(s, step);
    } else if step.CancelWorker? {
      EndWorkerReleases(s, step.w, c);
    } else if step.FlushCrash? {
      CrashReleases(s, step.w, c);
    } else if step.DropClosed? {
      GiveBackCounts(s, step.w, false, c);
      NotFlushing(s, step.w);
    } else if !step.Opened? {
      WorkerKeepsChannels(s, step);
    }
  }

  /** Channels are used linearly: at every point of a run each is held by one worker, or was given back or thrown
      away exactly once; an envelope only goes out on a channel its worker holds; and a channel goes back to the
      pool only when none of its worker's items is being flushed. */
  lemma ChannelsAreLinear(states: seq<State>, steps: seq<Step>, n: nat, c: nat)
    requires Run(states, steps) && n < |steps| && c < |states[n].channels|
    ensures ChannelOk(states[n], c) && ReleasedClean(states[n], states[n + 1], c)
    ensures steps[n].Transmit? ==>
              && steps[n].w < |states[n].workers| && states[n].workers[steps[n].w].channel.Some?
              && states[n].workers[steps[n].w].channel.value < |states[n].channels|
              && states[n].channels[states[n].workers[steps[n].w].channel.value] == Channel(Some(steps[n].w), 0, 0)
  {
    RunKeeps(states, steps, n);
    StepAt(states, steps, n);
    StepReleasesClean(states[n], steps[n], c);
    if steps[n].Transmit? {
      assert WorkerOk(states[n].workers[steps[n].w]);
      assert ChannelOk(states[n], states[n].workers[steps[n].w].channel.value);
    }
  }

  // ---------------------------------------------------------------- how much is dequeued at once

  /** Everything in any worker's batch. */
  function Dequeued(workers: seq<Worker>): set<nat> {
    if workers == [] then {} else Dequeued(workers[..|workers| - 1]) + Elements(workers[|workers| - 1].batch)
  }

  lemma {:induction false} SeqSetSize(q: seq<nat>)
    ensures |Elements(q)| <= |q|
  {
    if q != [] {
      var init := q[..|q| - 1];
      SeqSetSize(init);
      assert q == init + [q[|q| - 1]];
      assert Elements(q) == Elements(init) + {q[|q| - 1]};
    }
  }

  lemma {:induction false} DequeuedSize(workers: seq<Worker>, size: nat)
    requires forall w :: 0 <= w < |workers| ==> |workers[w].batch| <= size
    ensures |Dequeued(workers)| <= |workers| * size
  {
    if workers != [] {
      var n := |workers| - 1;
      DequeuedSize(workers[..n], size);
      SeqSetSize(workers[n].batch);
      assert |workers| * size == n * size + size;
    }
  }

  lemma {:induction false} DequeuedHas(workers: seq<Worker>, w: nat, i: nat)
    requires w < |workers| && i in workers[w].batch
    ensures i in Dequeued(workers)
  {
    if w < |workers| - 1 { DequeuedHas(workers[..|workers| - 1], w, i); }
  }

  lemma WorkersTimesBatch(cfg: Config)
    requires ValidConfig(cfg) && cfg.flushWorkers == 0
    ensures WorkerCount(cfg) * cfg.batchSize <=
            if cfg.maxInFlight > cfg.batchSize then cfg.maxInFlight else cfg.batchSize
  {
    var n := cfg.maxInFlight / cfg.batchSize;
    assert n * cfg.batchSize <= cfg.maxInFlight;
    if n >= 1 { assert WorkerCount(cfg) * cfg.batchSize <= n * cfg.batchSize; }
  }

  /** At most workers times batch size items are dequeued and unresolved; with automatic workers, never more than
      the larger of `max_in_flight` and `batch_size`. */
  lemma DequeuedBound(states: seq<State>, steps: seq<Step>, n: nat)
    requires Run(states, steps) && n < |states|
    ensures |states[n].active| <= |states[n].workers| * states[n].cfg.batchSize
    ensures states[n].cfg.flushWorkers == 0 ==>
              |states[n].active| <=
                if states[n].cfg.maxInFlight > states[n].cfg.batchSize then states[n].cfg.maxInFlight
                else states[n].cfg.batchSize
  {
    RunKeeps(states, steps, n);
    var s := states[n];
    forall i | i in s.active ensures i in Dequeued(s.workers) {
      assert PlaceOk(s, s.items[i]);
      var w := s.items[i].holder.worker;
      assert BatchOk(s, w);
      DequeuedHas(s.workers, w, i);
    }
    forall w | 0 <= w < |s.workers| ensures |s.workers[w].batch| <= s.cfg.batchSize { assert BatchOk(s, w); }
    DequeuedSize(s.workers, s.cfg.batchSize);
    SubsetSize(s.active, Dequeued(s.workers));
    if s.cfg.flushWorkers == 0 { WorkersTimesBatch(s.cfg); }
  }

  lemma SubsetSize(a: set<nat>, b: set<nat>)
    requires a <= b
    ensures |a| <= |b|
  {
    assert b == a + (b - a);
  }
}
