/** What every step of the batch publisher makes of an item: which outcome it is given and when, what `publish()`
    returns, the order of the queue, and what becomes of a channel.
 */
module BatchOutcomes {
  import opened Common
  import opened BatchState
  import opened BatchProofs
  import opened BatchRuns

  // ---------------------------------------------------------------- outcomes

  /** The outcome of each item of a batch when its flush fails, and when its worker ends. */
  function CrashVerdict(it: Item): Outcome {
    if it.phase == Flushing then Own(Unknown, ConnectionLost) else Own(Errored, PublishError)
  }

  function EndVerdict(it: Item): Outcome {
    if it.phase == Flushing then Own(Unknown, Shutdown) else Own(NotSent, PublisherClosed)
  }

  /** The outcome an unresolved item gets at this step. */
  ghost predicate Prescribes(s: State, step: Step, k: nat, o: Outcome)
    requires k < |s.items| && Enabled(s, step)
  {
    match step
    case PutTimedOut(i) => i == k && o == Own(NotSent, AdmissionTimeout)
    case PutCancelled(i) => i == k && o == Own(NotSent, CallerCancelled)
    case Expire(i) => i == k && s.items[k].phase == Queued && o == Own(NotSent, AdmissionTimeout)
    case CancelDeliver(i) => i == k && s.items[k].phase == Queued && o == Own(NotSent, CallerCancelled)
    case GiveUp(w) => k in s.workers[w].batch && o == Own(NotSent, ChannelUnavailable)
    case StartFlush(w, late) =>
      k in s.workers[w].batch && k in late && s.items[k].phase == Queued && o == Own(NotSent, AdmissionTimeout)
    case Resolve(w, live, outcomes) => exists j :: 0 <= j < |live| && live[j] == k && outcomes[j] == o
    case FlushCrash(w) => k in s.workers[w].batch && o == CrashVerdict(s.items[k])
    case CancelWorker(w) => k in s.workers[w].batch && o == EndVerdict(s.items[k])
    case StopDrain(_) => k in s.pending && o == Own(NotSent, PublisherClosed)
    case _ => false
  }

  /** The item is resolved with this outcome, and its caller told if it still waits. */
  ghost predicate Gets(it: Item, it': Item, o: Outcome) {
    it'.phase == Done && it'.final == Some(o) && it'.caller == if it.caller == Pending then Answered(o) else it.caller
  }

  /** The item is resolved as prescribed, or not at all. */
  ghost predicate Follows(s: State, step: Step, k: nat, it': Item)
    requires k < |s.items| && Enabled(s, step)
  {
    && (forall o :: Prescribes(s, step, k, o) ==> Gets(s.items[k], it', o))
    && ((forall o :: !Prescribes(s, step, k, o)) ==> it'.phase != Done)
  }

  lemma CallerFollows(s: State, step: Step, k: nat)
    requires Inv(s) && Enabled(s, step) && CallerSide(step) && k < |s.items| && s.items[k].phase != Done
    ensures k < |Apply(s, step).items| && Follows(s, step, k, Apply(s, step).items[k])
  {
    assert ItemOk(s.items[k]);
    if step.PutTimedOut? || step.PutCancelled? || step.Expire? || step.CancelDeliver? {
      WithdrawalFollows(s, step, k);
    } else {
      OtherCallerStep(s, step, k);
    }
  }

  lemma WithdrawalFollows(s: State, step: Step, k: nat)
    requires Enabled(s, step) && k < |s.items| && s.items[k].phase != Done
    requires step.PutTimedOut? || step.PutCancelled? || step.Expire? || step.CancelDeliver?
    requires ItemOk(s.items[k])
    ensures k < |Apply(s, step).items| && Follows(s, step, k, Apply(s, step).items[k])
  {
    WithdrawnItem(s, step, k);
    var o := Withdrawal(step);
    assert (forall x :: !Prescribes(s, step, k, x)) ==> !Prescribes(s, step, k, o);
  }

  function Withdrawal(step: Step): Outcome {
    if step.PutTimedOut? || step.Expire? then Own(NotSent, AdmissionTimeout) else Own(NotSent, CallerCancelled)
  }

  lemma WithdrawnItem(s: State, step: Step, k: nat)
    requires CallerSide(step) && CallerEnabled(s, step)
    requires k < |s.items| && s.items[k].phase != Done && ItemOk(s.items[k])
    requires step.PutTimedOut? || step.PutCancelled? || step.Expire? || step.CancelDeliver?
    ensures k < |CallerStep(s, step).items|
    ensures if step.i == k && (step.PutTimedOut? || step.PutCancelled? || s.items[k].phase == Queued)
            then Gets(s.items[k], CallerStep(s, step).items[k], Withdrawal(step))
            else CallerStep(s, step).items[k].phase != Done
  {
  }

  lemma OtherCallerStep(s: State, step: Step, k: nat)
    requires Enabled(s, step) && CallerSide(step) && k < |s.items|
    requires !step.PutTimedOut? && !step.PutCancelled? && !step.Expire? && !step.CancelDeliver?
    ensures k < |Apply(s, step).items| && Apply(s, step).items[k].phase == s.items[k].phase
  {
  }

  /** A worker's batch resolved in order, each item with its own outcome. */
  lemma BatchGets(s: State, ids: seq<nat>, outcomes: seq<Outcome>, k: nat)
    requires |ids| == |outcomes| && Below(ids, |s.items|) && NoRepeats(ids) && k < |s.items| && s.items[k].phase != Done
    ensures var it' := FinishEach(s, ids, outcomes).items[k];
            && (k !in ids ==> it' == s.items[k])
            && (forall j :: 0 <= j < |ids| && ids[j] == k ==> Gets(s.items[k], it', outcomes[j]))
  {
    if k !in ids { FinishEachMisses(s, ids, outcomes, k); }
    forall j | 0 <= j < |ids| && ids[j] == k
      ensures Gets(s.items[k], FinishEach(s, ids, outcomes).items[k], outcomes[j])
    {
      FinishEachHits(s, ids, outcomes, j);
    }
  }

  lemma ResolveFollows(s: State, w: nat, live: seq<nat>, outcomes: seq<Outcome>, k: nat)
    requires Inv(s) && Enabled(s, Resolve(w, live, outcomes)) && k < |s.items| && s.items[k].phase != Done
    ensures var s' := Apply(s, Resolve(w, live, outcomes));
            k < |s'.items| && Follows(s, Resolve(w, live, outcomes), k, s'.items[k])
  {
    BatchGets(s, live, outcomes, k);
    if k in live {
      var j :| 0 <= j < |live| && live[j] == k;
      assert Prescribes(s, Resolve(w, live, outcomes), k, outcomes[j]);
    }
  }

  /** The steps that resolve a whole batch and let go of it. */
  lemma ClearedFollows(s: State, w: nat, outcomes: seq<Outcome>, place: Place, k: nat)
    requires Inv(s) && Housed(s) && w < |s.workers| && |outcomes| == |s.workers[w].batch|
    requires k < |s.items| && s.items[k].phase != Done
    ensures FinishEach(s, s.workers[w].batch, outcomes).workers == s.workers
    ensures var it' := ClearBatch(FinishEach(s, s.workers[w].batch, outcomes), w, place).items[k];
            && (k !in s.workers[w].batch ==> it' == s.items[k])
            && (forall j :: 0 <= j < |outcomes| && s.workers[w].batch[j] == k ==> Gets(s.items[k], it', outcomes[j]))
  {
    assert BatchOk(s, w);
    FinishEachFrame(s, s.workers[w].batch, outcomes);
    BatchGets(s, s.workers[w].batch, outcomes, k);
  }

  lemma GiveUpFollows(s: State, w: nat, k: nat)
    requires Inv(s) && Enabled(s, GiveUp(w)) && k < |s.items| && s.items[k].phase != Done
    ensures k < |Apply(s, GiveUp(w)).items| && Follows(s, GiveUp(w), k, Apply(s, GiveUp(w)).items[k])
  {
    var b := s.workers[w].batch;
    ClearedFollows(s, w, Same(|b|, Own(NotSent, ChannelUnavailable)), Collecting, k);
    if k in b {
      var j :| 0 <= j < |b| && b[j] == k;
      assert Prescribes(s, GiveUp(w), k, Own(NotSent, ChannelUnavailable));
    }
  }

  lemma CrashItem(s: State, w: nat, k: nat)
    requires Inv(s) && Housed(s) && w < |s.workers| && k < |s.items| && s.items[k].phase != Done
    ensures k < |CrashFlush(s, w).items|
    ensures if k in s.workers[w].batch then Gets(s.items[k], CrashFlush(s, w).items[k], CrashVerdict(s.items[k]))
            else CrashFlush(s, w).items[k] == s.items[k]
  {
    var b := s.workers[w].batch;
    var outs := CrashOutcomes(s.items, b);
    ClearedFollows(s, w, outs, Collecting, k);
    GiveBackItems(ClearBatch(FinishEach(s, b, outs), w, Collecting), w, true);
    if k in b {
      var j :| 0 <= j < |b| && b[j] == k;
      assert outs[j] == CrashVerdict(s.items[k]);
    }
  }

  lemma EndItem(s: State, w: nat, k: nat)
    requires Inv(s) && Housed(s) && w < |s.workers| && k < |s.items| && s.items[k].phase != Done
    ensures k < |EndWorker(s, w).items|
    ensures if k in s.workers[w].batch then Gets(s.items[k], EndWorker(s, w).items[k], EndVerdict(s.items[k]))
            else EndWorker(s, w).items[k] == s.items[k]
  {
    var b := s.workers[w].batch;
    var outs := ShutdownOutcomes(s.items, b);
    ClearedFollows(s, w, outs, Gone, k);
    GiveBackItems(ClearBatch(FinishEach(s, b, outs), w, Gone), w, MidFlush(s, w));
    if k in b {
      var j :| 0 <= j < |b| && b[j] == k;
      assert outs[j] == EndVerdict(s.items[k]);
    }
  }

  lemma GiveBackItems(s: State, w: nat, discard: bool)
    requires w < |s.workers|
    ensures GiveBack(s, w, discard).items == s.items
  {
  }

  lemma CrashFollows(s: State, w: nat, k: nat)
    requires Inv(s) && Enabled(s, FlushCrash(w)) && k < |s.items| && s.items[k].phase != Done
    ensures k < |Apply(s, FlushCrash(w)).items| && Follows(s, FlushCrash(w), k, Apply(s, FlushCrash(w)).items[k])
  {
    CrashItem(s, w, k);
    if k in s.workers[w].batch { assert Prescribes(s, FlushCrash(w), k, CrashVerdict(s.items[k])); }
  }

  lemma CancelFollows(s: State, w: nat, k: nat)
    requires Inv(s) && Enabled(s, CancelWorker(w)) && k < |s.items| && s.items[k].phase != Done
    ensures k < |Apply(s, CancelWorker(w)).items| && Follows(s, CancelWorker(w), k, Apply(s, CancelWorker(w)).items[k])
  {
    EndItem(s, w, k);
    if k in s.workers[w].batch { assert Prescribes(s, CancelWorker(w), k, EndVerdict(s.items[k])); }
  }

  lemma StartFollows(s: State, w: nat, late: set<nat>, k: nat)
    requires Inv(s) && Enabled(s, StartFlush(w, late)) && k < |s.items| && s.items[k].phase != Done
    ensures var s' := Apply(s, StartFlush(w, late));
            && k < |s'.items| && Follows(s, StartFlush(w, late), k, s'.items[k])
            && (s.items[k].phase == Queued ==>
                  (s'.items[k].phase == Flushing <==> k in s.workers[w].batch && k !in late))
  {
    assert BatchOk(s, w);
    MarkEachFrame(s, s.workers[w].batch, late);
    MarkEachAt(s, s.workers[w].batch, late, k);
    assert (forall x :: !Prescribes(s, StartFlush(w, late), k, x)) ==>
             !Prescribes(s, StartFlush(w, late), k, Own(NotSent, AdmissionTimeout));
  }

  lemma DrainFollows(s: State, left: seq<nat>, k: nat)
    requires Inv(s) && Enabled(s, StopDrain(left)) && k < |s.items| && s.items[k].phase != Done
    ensures var s' := Apply(s, StopDrain(left)); k < |s'.items| && Follows(s, StopDrain(left), k, s'.items[k])
  {
    DrainIs(s, left);
    var outs := Same(|s.pending|, Own(NotSent, PublisherClosed));
    BatchGets(s, s.pending, outs, k);
    if k in s.pending {
      var j :| 0 <= j < |s.pending| && s.pending[j] == k;
      assert Prescribes(s, StopDrain(left), k, outs[j]);
    }
  }

  lemma PlainFollows(s: State, step: Step, k: nat)
    requires Inv(s) && Enabled(s, step) && !CallerSide(step) && k < |s.items| && s.items[k].phase != Done
    requires !step.GiveUp? && !step.StartFlush? && !step.Resolve? && !step.FlushCrash? && !step.CancelWorker?
    requires !step.StopDrain?
    ensures k < |Apply(s, step).items| && Follows(s, step, k, Apply(s, step).items[k])
  {
  }

  lemma BatchStepFollows(s: State, step: Step, k: nat)
    requires Inv(s) && Enabled(s, step) && k < |s.items| && s.items[k].phase != Done
    requires step.GiveUp? || step.StartFlush? || step.Resolve? || step.FlushCrash?
    ensures k < |Apply(s, step).items| && Follows(s, step, k, Apply(s, step).items[k])
  {
    match step
    case GiveUp(w) => GiveUpFollows(s, w, k);
    case StartFlush(w, late) => StartFollows(s, w, late, k);
    case Resolve(w, live, outcomes) => ResolveFollows(s, w, live, outcomes, k);
    case FlushCrash(w) => CrashFollows(s, w, k);
  }

  lemma WorkerFollows(s: State, step: Step, k: nat)
    requires Inv(s) && Enabled(s, step) && !CallerSide(step) && k < |s.items| && s.items[k].phase != Done
    ensures k < |Apply(s, step).items| && Follows(s, step, k, Apply(s, step).items[k])
  {
    if step.GiveUp? || step.StartFlush? || step.Resolve? || step.FlushCrash? {
      BatchStepFollows(s, step, k);
    } else if step.CancelWorker? {
      CancelFollows(s, step.w, k);
    } else if step.StopDrain? {
      DrainFollows(s, step.left, k);
    } else {
      PlainFollows(s, step, k);
    }
  }

  /** Every step resolves exactly the items it should, each with its own outcome, and tells the callers that wait. */
  lemma StepFollows(s: State, step: Step, k: nat)
    requires Inv(s) && Enabled(s, step) && k < |s.items| && s.items[k].phase != Done
    ensures k < |Apply(s, step).items| && Follows(s, step, k, Apply(s, step).items[k])
  {
    if CallerSide(step) { CallerFollows(s, step, k); } else { WorkerFollows(s, step, k); }
  }

  /** Over every run: an item is resolved exactly when and as the step that touches it prescribes. */
  lemma OutcomesAreExact(states: seq<State>, steps: seq<Step>, n: nat, k: nat)
    requires Run(states, steps) && n < |steps| && k < |states[n].items| && states[n].items[k].phase != Done
    ensures Enabled(states[n], steps[n]) && k < |states[n + 1].items|
    ensures Follows(states[n], steps[n], k, states[n + 1].items[k])
  {
    RunKeeps(states, steps, n);
    StepAt(states, steps, n);
    StepFollows(states[n], steps[n], k);
  }

  /** In particular each published item gets the outcome the transport gave for it, and its caller hears it. */
  lemma EachGetsItsOwn(states: seq<State>, steps: seq<Step>, n: nat, w: nat, live: seq<nat>, outcomes: seq<Outcome>,
                       j: nat)
    requires Run(states, steps) && n < |states| && Enabled(states[n], Resolve(w, live, outcomes)) && j < |live|
    ensures var s' := Apply(states[n], Resolve(w, live, outcomes));
            && live[j] < |states[n].items| && live[j] < |s'.items|
            && Gets(states[n].items[live[j]], s'.items[live[j]], outcomes[j])
  {
    RunKeeps(states, steps, n);
    assert live[j] in live;
    ResolveFollows(states[n], w, live, outcomes, live[j]);
    assert Prescribes(states[n], Resolve(w, live, outcomes), live[j], outcomes[j]);
  }

  /** ... and when the flush itself fails, what was on the wire is UNKNOWN and the rest an ERROR. */
  lemma CrashResolves(states: seq<State>, steps: seq<Step>, n: nat, w: nat, k: nat)
    requires Run(states, steps) && n < |states| && Enabled(states[n], FlushCrash(w)) && k in states[n].workers[w].batch
    ensures k < |states[n].items| && k < |Apply(states[n], FlushCrash(w)).items|
    ensures var it, it' := states[n].items[k], Apply(states[n], FlushCrash(w)).items[k];
            match it.phase
            case Queued => Gets(it, it', Own(Errored, PublishError))
            case Flushing => Gets(it, it', Own(Unknown, ConnectionLost))
            case Done => it'.final == it.final && it'.caller == it.caller
  {
    RunKeeps(states, steps, n);
    var s := states[n];
    assert BatchOk(s, w);
    if s.items[k].phase != Done {
      CrashItem(s, w, k);
    } else {
      CrashSpares(s, w, k);
    }
  }

  lemma CrashSpares(s: State, w: nat, k: nat)
    requires Inv(s) && Housed(s) && w < |s.workers| && k in s.workers[w].batch
    requires k < |s.items| && s.items[k].phase == Done
    ensures k < |CrashFlush(s, w).items|
    ensures CrashFlush(s, w).items[k].final == s.items[k].final && CrashFlush(s, w).items[k].caller == s.items[k].caller
  {
    var b := s.workers[w].batch;
    var outs := CrashOutcomes(s.items, b);
    assert BatchOk(s, w);
    FinishEachFrame(s, b, outs);
    var j :| 0 <= j < |b| && b[j] == k;
    FinishEachHits(s, b, outs, j);
    var s2 := ClearBatch(FinishEach(s, b, outs), w, Collecting);
    assert GiveBack(s2, w, true).items == s2.items;
  }

  // ---------------------------------------------------------------- what publish() answers

  /** A new publish is refused when the publisher is closed or the message exceeds the whole budget; otherwise it waits
      for its bytes if there is a budget, else for room in the queue if there is none. */
  lemma BeginAnswers(s: State, size: nat, k: nat)
    ensures var s', i := BeginPublish(s, size), |s.items|;
            && |s'.items| == |s.items| + 1 && (k < |s.items| ==> s'.items[k] == s.items[k]) && s'.items[i].size == size
            && s' == s.(items := s'.items, pending := s'.pending)
            && (s'.pending == if s'.items[i].entry == Waiting then s.pending + [i] else s.pending)
            && s'.items[i].entry ==
                 (if s.closed then Finished(Own(NotSent, PublisherClosed))
                  else if s.cfg.byteLimit.Some? && size > s.cfg.byteLimit.value
                  then Finished(Own(NotSent, ExceedsByteBudget))
                  else if s.cfg.byteLimit.Some? then Admitting
                  else if |s.pending| < s.cfg.maxInFlight then Waiting
                  else Putting)
            && (s'.items[i].enqueued <==> s'.items[i].entry == Waiting)
            && (s'.items[i].entry == Waiting ==> s'.items[i].caller == Pending && s'.items[i].phase == Queued)
  {
  }

  /** How a call of `publish()` ends at this step. */
  ghost predicate Ends(s: State, step: Step, k: nat, entry: Entry)
    requires k < |s.items| && Enabled(s, step)
  {
    match step
    case AdmitRefused(i, reason) => i == k && entry == Finished(Own(NotSent, reason))
    case AdmitHandBack(i, cancelled) =>
      i == k && entry == if cancelled then Raised else Finished(Own(NotSent, AdmissionTimeout))
    case AdmitCancelled(i) => i == k && entry == Raised
    case PutTimedOut(i) => i == k && entry == Finished(Own(NotSent, AdmissionTimeout))
    case PutCancelled(i) => i == k && entry == Raised
    case CancelDeliver(i) => i == k && entry == Raised
    case Resume(i) => i == k && entry == Finished(s.items[k].caller.outcome)
    case _ => false
  }

  lemma CallerStepEnds(s: State, step: Step, k: nat)
    requires Enabled(s, step) && CallerSide(step) && k < |s.items|
    ensures k < |CallerStep(s, step).items|
    ensures forall e :: Ends(s, step, k, e) ==> CallerStep(s, step).items[k].entry == e
    ensures (forall e :: !Ends(s, step, k, e)) ==>
              var e := CallerStep(s, step).items[k].entry; e == s.items[k].entry || !(e.Finished? || e == Raised)
  {
    var e := CallerStep(s, step).items[k].entry;
    assert (forall x :: !Ends(s, step, k, x)) ==> !Ends(s, step, k, e);
  }

  /** Workers, timers and the stop answer callers, but a call returns or raises only by its own steps, and with the
      outcome they prescribe: what its caller was answered, or why it never entered the queue. */
  lemma CallsEndAsAnswered(states: seq<State>, steps: seq<Step>, n: nat, k: nat)
    requires Run(states, steps) && n < |steps| && k < |states[n].items|
    ensures Enabled(states[n], steps[n]) && k < |states[n + 1].items|
    ensures var e, e' := states[n].items[k].entry, states[n + 1].items[k].entry;
            && (forall x :: Ends(states[n], steps[n], k, x) ==> e' == x)
            && ((forall x :: !Ends(states[n], steps[n], k, x)) ==> e' == e || !(e'.Finished? || e' == Raised))
  {
    StepAt(states, steps, n);
    if CallerSide(steps[n]) {
      CallerStepEnds(states[n], steps[n], k);
    } else {
      EvolvesAt(states, steps, n, k);
      WorkersKeepEntries(states[n], steps[n], k);
    }
  }

  lemma {:induction false} FinishKeepsEntries(s: State, ids: seq<nat>, outcomes: seq<Outcome>, k: nat)
    requires |ids| == |outcomes| && Below(ids, |s.items|) && k < |s.items|
    ensures FinishEach(s, ids, outcomes).items[k].entry == s.items[k].entry
    decreases |ids|
  {
    if |ids| > 0 { FinishKeepsEntries(s, ids[..|ids| - 1], outcomes[..|ids| - 1], k); }
  }

  lemma {:induction false} MarkKeepsEntries(s: State, ids: seq<nat>, late: set<nat>, k: nat)
    requires Below(ids, |s.items|) && k < |s.items|
    ensures MarkEach(s, ids, late).items[k].entry == s.items[k].entry
    decreases |ids|
  {
    if |ids| > 0 { MarkKeepsEntries(s, ids[..|ids| - 1], late, k); }
  }

  lemma WorkersKeepEntries(s: State, step: Step, k: nat)
    requires Enabled(s, step) && !CallerSide(step) && k < |s.items|
    ensures k < |WorkerStep(s, step).items| && WorkerStep(s, step).items[k].entry == s.items[k].entry
  {
    match step
    case GiveUp(w) => FailKeepsEntries(s, w, k);
    case StartFlush(w, late) => StartKeepsEntries(s, w, late, k);
    case Resolve(w, live, outcomes) => ResolveKeepsEntries(s, w, live, outcomes, k);
    case FlushCrash(w) => CrashKeepsEntries(s, w, k);
    case CancelWorker(w) => EndKeepsEntries(s, w, k);
    case StopDrain(left) => DrainKeepsEntries(s, left, k);
    case _ => PlainKeepsEntries(s, step, k);
  }

  predicate Settles(step: Step) {
    step.GiveUp? || step.StartFlush? || step.Resolve? || step.FlushCrash? || step.CancelWorker? || step.StopDrain?
  }

  lemma PlainKeepsEntries(s: State, step: Step, k: nat)
    requires Enabled(s, step) && !CallerSide(step) && !Settles(step) && k < |s.items|
    ensures k < |WorkerStep(s, step).items| && WorkerStep(s, step).items[k].entry == s.items[k].entry
  {
  }

  lemma StartKeepsEntries(s: State, w: nat, late: set<nat>, k: nat)
    requires Enabled(s, StartFlush(w, late)) && k < |s.items|
    ensures var s' := WorkerStep(s, StartFlush(w, late)); k < |s'.items| && s'.items[k].entry == s.items[k].entry
  {
    MarkKeepsEntries(s, s.workers[w].batch, late, k);
  }

  lemma ResolveKeepsEntries(s: State, w: nat, live: seq<nat>, outcomes: seq<Outcome>, k: nat)
    requires Enabled(s, Resolve(w, live, outcomes)) && k < |s.items|
    ensures var s' := WorkerStep(s, Resolve(w, live, outcomes));
            k < |s'.items| && s'.items[k].entry == s.items[k].entry
  {
    FinishKeepsEntries(s, live, outcomes, k);
  }

  lemma FailKeepsEntries(s: State, w: nat, k: nat)
    requires Housed(s) && w < |s.workers| && k < |s.items|
    ensures k < |FailAll(s, w).items| && FailAll(s, w).items[k].entry == s.items[k].entry
  {
    FinishKeepsEntries(s, s.workers[w].batch, Same(|s.workers[w].batch|, Own(NotSent, ChannelUnavailable)), k);
  }

  lemma CrashKeepsEntries(s: State, w: nat, k: nat)
    requires Housed(s) && w < |s.workers| && k < |s.items|
    ensures k < |CrashFlush(s, w).items| && CrashFlush(s, w).items[k].entry == s.items[k].entry
  {
    var b := s.workers[w].batch;
    FinishEachFrame(s, b, CrashOutcomes(s.items, b));
    FinishKeepsEntries(s, b, CrashOutcomes(s.items, b), k);
    GiveBackItems(ClearBatch(FinishEach(s, b, CrashOutcomes(s.items, b)), w, Collecting), w, true);
  }

  lemma EndKeepsEntries(s: State, w: nat, k: nat)
    requires Housed(s) && w < |s.workers| && k < |s.items|
    ensures k < |EndWorker(s, w).items| && EndWorker(s, w).items[k].entry == s.items[k].entry
  {
    var b := s.workers[w].batch;
    FinishEachFrame(s, b, ShutdownOutcomes(s.items, b));
    FinishKeepsEntries(s, b, ShutdownOutcomes(s.items, b), k);
    GiveBackItems(ClearBatch(FinishEach(s, b, ShutdownOutcomes(s.items, b)), w, Gone), w, MidFlush(s, w));
  }

  lemma DrainKeepsEntries(s: State, left: seq<nat>, k: nat)
    requires Housed(s) && Below(left, |s.items|) && k < |s.items|
    ensures k < |DrainAll(s, left).items| && DrainAll(s, left).items[k].entry == s.items[k].entry
  {
    var outs := ShutdownOutcomes(s.items, left);
    FinishEachFrame(s, left, outs);
    FinishKeepsEntries(s, left, outs, k);
    FinishKeepsEntries(FinishEach(s, left, outs), s.pending, Same(|s.pending|, Own(NotSent, PublisherClosed)), k);
  }

  // ---------------------------------------------------------------- order

  /** Who joins the end of the queue at this step, if anybody: a publish that finds room, or for which room was made. */
  function Joins(s: State, step: Step): Option<nat> {
    match step
    case Begin(_) =>
      if !s.closed && s.cfg.byteLimit == None && |s.pending| < s.cfg.maxInFlight then Some(|s.items|) else None
    case AdmitResume(i) => if |s.pending| < s.cfg.maxInFlight then Some(i) else None
    case PutGranted(i) => Some(i)
    case _ => None
  }

  /** One step of the queue: the oldest out, everything out, a new one in at the end, or nothing. */
  lemma QueueStep(s: State, step: Step)
    requires Enabled(s, step)
    ensures step.Take? ==> s.pending != []
    ensures Apply(s, step).pending ==
            if step.Take? then s.pending[1..]
            else if step.StopDrain? then []
            else if Joins(s, step).Some? then s.pending + [Joins(s, step).value]
            else s.pending
  {
    if CallerSide(step) { CallerQueueStep(s, step); } else { WorkerQueueStep(s, step); }
  }

  lemma CallerQueueStep(s: State, step: Step)
    requires CallerSide(step) && CallerEnabled(s, step)
    ensures CallerStep(s, step).pending ==
            if Joins(s, step).Some? then s.pending + [Joins(s, step).value] else s.pending
  {
  }

  lemma WorkerQueueStep(s: State, step: Step)
    requires Housed(s) && !CallerSide(step) && WorkerEnabled(s, step)
    ensures WorkerStep(s, step).pending ==
            if step.Take? then s.pending[1..] else if step.StopDrain? then [] else s.pending
  {
    match step
    case GiveUp(w) =>
      FinishEachFrame(s, s.workers[w].batch, Same(|s.workers[w].batch|, Own(NotSent, ChannelUnavailable)));
    case StartFlush(w, late) => MarkEachFrame(s, s.workers[w].batch, late);
    case Resolve(w, live, outcomes) => FinishEachFrame(s, live, outcomes);
    case FlushCrash(w) => FinishEachFrame(s, s.workers[w].batch, CrashOutcomes(s.items, s.workers[w].batch));
    case CancelWorker(w) => FinishEachFrame(s, s.workers[w].batch, ShutdownOutcomes(s.items, s.workers[w].batch));
    case _ =>
  }

  lemma QueueAt(states: seq<State>, steps: seq<Step>, n: nat)
    requires Run(states, steps) && n < |steps|
    ensures Moves(states[n].pending, states[n + 1].pending)
  {
    StepAt(states, steps, n);
    QueueStep(states[n], steps[n]);
  }

  /** First in, first out, over any stretch of a run: what is queued later is what is left of the queue, in its order,
      followed by what came in since. */
  lemma {:induction false} QueueIsFifo(states: seq<State>, steps: seq<Step>, m: nat, n: nat) returns (taken: nat)
    requires Run(states, steps) && m <= n < |states|
    ensures taken <= |states[m].pending| && states[m].pending[taken..] <= states[n].pending
    decreases n - m
  {
    if m == n {
      taken := 0;
    } else {
      taken := QueueIsFifo(states, steps, m, n - 1);
      QueueAt(states, steps, n - 1);
      taken := MovesOn(states[m].pending, taken, states[n - 1].pending, states[n].pending);
    }
  }

  /** The oldest queued item joins the end of the batch, if nobody withdrew it. */
  lemma TakesTheOldest(s: State, w: nat)
    requires Enabled(s, Take(w))
    ensures var s', k := Apply(s, Take(w)), s.pending[0];
            && s'.pending == s.pending[1..]
            && s'.workers[w].batch == s.workers[w].batch + (if s.items[k].phase == Queued then [k] else [])
            && (forall v :: 0 <= v < |s.workers| && v != w ==> s'.workers[v] == s.workers[v])
  {
  }

  // ---------------------------------------------------------------- channels

  /** When a worker's channel goes back to the pool, and when it is thrown away. */
  predicate ReleasesAt(s: State, step: Step, w: nat)
    requires w < |s.workers|
  {
    step == DropClosed(w) || (step == CancelWorker(w) && !MidFlush(s, w))
  }

  predicate DiscardsAt(s: State, step: Step, w: nat)
    requires w < |s.workers|
  {
    step == FlushCrash(w) || (step == CancelWorker(w) && MidFlush(s, w))
  }

  lemma GivenBack(s: State, w: nat, discard: bool, c: nat)
    requires ChannelsOk(s) && w < |s.workers| && c < |s.channels|
    ensures var s' := GiveBack(s, w, discard);
            && c < |s'.channels|
            && s'.channels[c] == (if s.channels[c].holder != Some(w) then s.channels[c]
                                  else if discard then Channel(None, s.channels[c].releases, s.channels[c].discards + 1)
                                  else Channel(None, s.channels[c].releases + 1, s.channels[c].discards))
  {
    assert ChannelOk(s, c);
  }

  /** A channel in use is released exactly when it was found closed or its worker ends with nothing on the wire, and
      discarded exactly when its flush failed or its worker ends in the middle of one. */
  lemma ChannelFate(s: State, step: Step, w: nat, c: nat)
    requires Inv(s) && Enabled(s, step) && c < |s.channels| && w < |s.workers| && s.channels[c].holder == Some(w)
    ensures c < |Apply(s, step).channels| && Apply(s, step).channels[c] == Fate(s, step, w, c)
  {
    if CallerSide(step) { CallerKeepsChannels(s, step); } else { WorkerFate(s, step, w, c); }
  }

  function Fate(s: State, step: Step, w: nat, c: nat): Channel
    requires c < |s.channels| && w < |s.workers|
  {
    if ReleasesAt(s, step, w) then Channel(None, s.channels[c].releases + 1, s.channels[c].discards)
    else if DiscardsAt(s, step, w) then Channel(None, s.channels[c].releases, s.channels[c].discards + 1)
    else s.channels[c]
  }

  lemma WorkerFate(s: State, step: Step, w: nat, c: nat)
    requires Inv(s) && Housed(s) && !CallerSide(step) && WorkerEnabled(s, step)
    requires c < |s.channels| && w < |s.workers| && s.channels[c].holder == Some(w)
    ensures c < |WorkerStep(s, step).channels| && WorkerStep(s, step).channels[c] == Fate(s, step, w, c)
  {
    if step.CancelWorker? || step.FlushCrash? || step.DropClosed? {
      GivingFate(s, step, w, c);
    } else {
      OtherFate(s, step, w, c);
    }
  }

  lemma GivingFate(s: State, step: Step, w: nat, c: nat)
    requires Inv(s) && Housed(s) && !CallerSide(step) && WorkerEnabled(s, step)
    requires c < |s.channels| && w < |s.workers| && s.channels[c].holder == Some(w)
    requires step.CancelWorker? || step.FlushCrash? || step.DropClosed?
    ensures c < |WorkerStep(s, step).channels| && WorkerStep(s, step).channels[c] == Fate(s, step, w, c)
  {
    match step
    case CancelWorker(v) => CancelFate(s, v, w, c);
    case FlushCrash(v) => CrashedFate(s, v, w, c);
    case DropClosed(v) => DropFate(s, v, w, c);
  }

  lemma CancelFate(s: State, v: nat, w: nat, c: nat)
    requires Inv(s) && Housed(s) && v < |s.workers| && w < |s.workers|
    requires c < |s.channels| && s.channels[c].holder == Some(w)
    ensures c < |EndWorker(s, v).channels| && EndWorker(s, v).channels[c] == Fate(s, CancelWorker(v), w, c)
  {
    EndFate(s, v, c);
  }

  lemma CrashedFate(s: State, v: nat, w: nat, c: nat)
    requires Inv(s) && Housed(s) && v < |s.workers| && w < |s.workers|
    requires c < |s.channels| && s.channels[c].holder == Some(w)
    ensures c < |CrashFlush(s, v).channels| && CrashFlush(s, v).channels[c] == Fate(s, FlushCrash(v), w, c)
  {
    CrashFate(s, v, c);
  }

  lemma DropFate(s: State, v: nat, w: nat, c: nat)
    requires Inv(s) && v < |s.workers| && c < |s.channels| && w < |s.workers| && s.channels[c].holder == Some(w)
    ensures c < |GiveBack(s, v, false).channels| && GiveBack(s, v, false).channels[c] == Fate(s, DropClosed(v), w, c)
  {
    GivenBack(s, v, false, c);
  }

  lemma OtherFate(s: State, step: Step, w: nat, c: nat)
    requires Housed(s) && !CallerSide(step) && WorkerEnabled(s, step) && c < |s.channels| && w < |s.workers|
    requires !step.CancelWorker? && !step.FlushCrash? && !step.DropClosed?
    ensures c < |WorkerStep(s, step).channels| && WorkerStep(s, step).channels[c] == Fate(s, step, w, c)
  {
    if !step.Opened? { WorkerKeepsChannels(s, step); }
  }

  lemma EndFate(s: State, w: nat, c: nat)
    requires Inv(s) && Housed(s) && w < |s.workers| && c < |s.channels|
    ensures c < |EndWorker(s, w).channels|
    ensures EndWorker(s, w).channels[c] ==
            if s.channels[c].holder != Some(w) then s.channels[c]
            else if MidFlush(s, w) then Channel(None, s.channels[c].releases, s.channels[c].discards + 1)
            else Channel(None, s.channels[c].releases + 1, s.channels[c].discards)
  {
    var b := s.workers[w].batch;
    var outs := ShutdownOutcomes(s.items, b);
    FinishEachFrame(s, b, outs);
    var s2 := ClearBatch(FinishEach(s, b, outs), w, Gone);
    SameChannels(s, s2);
    GivenBack(s2, w, MidFlush(s, w), c);
  }

  lemma CrashFate(s: State, w: nat, c: nat)
    requires Inv(s) && Housed(s) && w < |s.workers| && c < |s.channels|
    ensures c < |CrashFlush(s, w).channels|
    ensures CrashFlush(s, w).channels[c] ==
            if s.channels[c].holder != Some(w) then s.channels[c]
            else Channel(None, s.channels[c].releases, s.channels[c].discards + 1)
  {
    var b := s.workers[w].batch;
    var outs := CrashOutcomes(s.items, b);
    FinishEachFrame(s, b, outs);
    var s2 := ClearBatch(FinishEach(s, b, outs), w, Collecting);
    SameChannels(s, s2);
    GivenBack(s2, w, true, c);
  }

  // ---------------------------------------------------------------- nobody is stuck

  /** A publisher begins open, empty and with every worker about to open its channel. */
  lemma StartsOpen(cfg: Config, size: nat)
    requires ValidConfig(cfg)
    ensures var s := Init(cfg);
            && s.items == [] && s.pending == [] && s.channels == [] && s.used == 0 && !s.closed && !s.stopped
            && |s.workers| == WorkerCount(cfg)
            && (forall w :: 0 <= w < |s.workers| ==> s.workers[w] == Worker(Opening, [], None))
            && (cfg.byteLimit == None ==> BeginPublish(s, size).items[0].entry == Waiting)
  {
  }

  /** Anybody may publish at any time. A call that waits for its bytes gets them as soon as they fit, and can time out,
      be refused or be cancelled meanwhile; one that was granted them goes on or hands them back; one that waits for
      room gets it as soon as there is some, and can time out or be cancelled; and one that waits for its outcome can
      reach its deadline, returns as soon as it is answered, and can be cancelled. */
  lemma CallerMayGoOn(s: State, i: nat, size: nat)
    requires Housed(s) && i < |s.items|
    ensures Enabled(s, Begin(size))
    ensures match s.items[i].entry
            case Admitting =>
              && Enabled(s, AdmitCancelled(i)) && Enabled(s, AdmitRefused(i, AdmissionTimeout))
              && Enabled(s, AdmitRefused(i, PublisherClosed))
              && (Enabled(s, AdmitGranted(i)) <==>
                    s.cfg.byteLimit.Some? && s.used + s.items[i].size <= s.cfg.byteLimit.value)
            case Granted =>
              Enabled(s, AdmitResume(i)) && Enabled(s, AdmitHandBack(i, true)) && Enabled(s, AdmitHandBack(i, false))
            case Putting =>
              && Enabled(s, PutTimedOut(i)) && Enabled(s, PutCancelled(i))
              && (Enabled(s, PutGranted(i)) <==> |s.pending| < s.cfg.maxInFlight)
            case Waiting =>
              && Enabled(s, Expire(i))
              && (Enabled(s, Resume(i)) <==> s.items[i].caller.Answered?)
              && (Enabled(s, CancelRequest(i)) <==> s.items[i].caller == Pending)
              && (Enabled(s, CancelDeliver(i)) <==> s.items[i].caller == Withdrawn || s.items[i].caller.Answered?)
            case _ => true
  {
  }

  /** A cancelled call ends with its exception, and its message, if it was still queued, is withdrawn as never sent. */
  lemma CancelGoesThrough(s: State, i: nat)
    requires Housed(s) && i < |s.items| && s.items[i].entry == Waiting && s.items[i].caller == Pending
    ensures Enabled(s, CancelRequest(i))
    ensures var s1 := CallerStep(s, CancelRequest(i));
            && i < |s1.items| && s1.items[i] == s.items[i].(caller := Withdrawn) && CallerEnabled(s1, CancelDeliver(i))
            && var s2 := CallerStep(s1, CancelDeliver(i));
               && i < |s2.items| && s2.items[i].entry == Raised && s2.items[i].caller == Withdrawn
               && (s.items[i].phase == Queued ==> s2.items[i].final == Some(Own(NotSent, CallerCancelled)))
               && (s.items[i].phase == Flushing ==> s2.items[i].final == s.items[i].final)
  {
  }

  /** The reasons a call can be refused for while it waits for its bytes. */
  lemma RefusalsAre(s: State, i: nat, reason: Reason)
    requires Housed(s) && i < |s.items| && s.items[i].entry == Admitting
    ensures Enabled(s, AdmitRefused(i, reason)) <==> reason in {AdmissionTimeout, PublisherClosed}
  {
  }

  /** A worker can always go on: it opens its channel or does without, takes what is queued while its batch has room,
      flushes what it has, on a channel it has or gets, or gives the batch up without one; and at any point it can crash
      in its flush, find its channel closed, or be cancelled. */
  lemma WorkerMayGoOn(s: State, w: nat, late: set<nat>)
    requires Housed(s) && w < |s.workers| && WorkerOk(s.workers[w])
    ensures s.workers[w].place != Gone ==> WorkerEnabled(s, CancelWorker(w))
    ensures match s.workers[w].place
            case Opening => WorkerEnabled(s, Opened(w)) && WorkerEnabled(s, OpenFailed(w))
            case Collecting =>
              && (WorkerEnabled(s, Take(w)) <==> |s.workers[w].batch| < s.cfg.batchSize && s.pending != [])
              && (WorkerEnabled(s, EndCollect(w)) <==> s.workers[w].batch != [])
            case Readying =>
              && (WorkerEnabled(s, StartFlush(w, late)) <==> s.workers[w].channel.Some?)
              && (WorkerEnabled(s, DropClosed(w)) <==> s.workers[w].channel.Some?)
              && (WorkerEnabled(s, Opened(w)) <==> s.workers[w].channel == None)
              && (WorkerEnabled(s, GiveUp(w)) <==> s.workers[w].channel == None)
            case InFlight => WorkerEnabled(s, FlushCrash(w))
            case Resolved => WorkerEnabled(s, EndFlush(w)) && WorkerEnabled(s, FlushCrash(w))
            case Gone => true
  {
  }

  /** What every run keeps is enough for that. */
  lemma InvIsHoused(s: State, w: nat)
    requires Inv(s) && w < |s.workers|
    ensures Housed(s) && WorkerOk(s.workers[w]) && BatchOk(s, w)
  {
    HousedOk(s);
  }

  lemma {:induction false} FlushingOf(s: State, ids: seq<nat>) returns (live: seq<nat>)
    requires Below(ids, |s.items|) && NoRepeats(ids)
    ensures Below(live, |s.items|) && NoRepeats(live)
    ensures forall i :: i in live <==> i in ids && s.items[i].phase == Flushing
    decreases |ids|
  {
    live := [];
    if ids != [] {
      live := FlushingOf(s, ids[..|ids| - 1]);
      assert ids == ids[..|ids| - 1] + [ids[|ids| - 1]];
      if s.items[ids[|ids| - 1]].phase == Flushing { live := live + [ids[|ids| - 1]]; }
    }
  }

  /** A flush can end, with any outcome the transport may give. */
  lemma FlushMayEnd(s: State, w: nat, o: Outcome) returns (live: seq<nat>)
    requires Inv(s) && At(s, w, InFlight) && GatheredOutcome(o)
    ensures Enabled(s, Resolve(w, live, Same(|live|, o)))
  {
    InvIsHoused(s, w);
    live := FlushingOf(s, s.workers[w].batch);
  }

  /** A stop can begin at any time. */
  lemma StopMayBegin(s: State)
    requires Housed(s)
    ensures Enabled(s, StopBegin) && Apply(s, StopBegin) == s.(closed := true)
  {
  }

  /** It can go on: each worker that is left can be cancelled, which ends that worker and no other; ... */
  lemma StopMayCancel(s: State, w: nat)
    requires Inv(s) && w < |s.workers| && s.workers[w].place != Gone
    ensures Enabled(s, CancelWorker(w)) && OnlyGone(s, Apply(s, CancelWorker(w)), w)
  {
    InvIsHoused(s, w);
    EndsOnlyItself(s, w);
  }

  /** ... and once none is left the drain can run and the stop is over. */
  lemma StopMayDrain(s: State)
    requires Inv(s) && s.closed && forall v :: 0 <= v < |s.workers| ==> s.workers[v].place == Gone
    ensures Enabled(s, StopDrain([])) && Apply(s, StopDrain([])).stopped
  {
    InvIsHoused(s, 0);
    NobodyActive(s);
  }

  ghost predicate OnlyGone(s: State, s': State, w: nat)
    requires w < |s.workers|
  {
    && |s'.workers| == |s.workers| && s'.workers[w].place == Gone
    && forall v :: 0 <= v < |s.workers| && v != w ==> s'.workers[v] == s.workers[v]
  }

  lemma EndsOnlyItself(s: State, w: nat)
    requires Housed(s) && w < |s.workers|
    ensures OnlyGone(s, EndWorker(s, w), w)
  {
    FinishEachFrame(s, s.workers[w].batch, ShutdownOutcomes(s.items, s.workers[w].batch));
  }

  lemma NobodyActive(s: State)
    requires BatchesOk(s) && PlacesOk(s) && forall v :: 0 <= v < |s.workers| ==> s.workers[v].place == Gone
    ensures s.active == {}
  {
    assert forall k :: k in s.active ==> k < |s.items| && s.items[k].holder.InBatch?;
    assert forall k :: 0 <= k < |s.items| ==> PlaceOk(s, s.items[k]);
  }

  // ---------------------------------------------------------------- the number of workers

  /** An explicit count is taken as it is; an automatic one is the largest up to sixteen whose batches fit into the
      queue, and at least one. */
  lemma WorkerCountIs(cfg: Config)
    requires ValidConfig(cfg)
    ensures cfg.flushWorkers > 0 ==> WorkerCount(cfg) == cfg.flushWorkers
    ensures cfg.flushWorkers == 0 ==>
              && 1 <= WorkerCount(cfg) <= 16
              && (WorkerCount(cfg) == 1 || WorkerCount(cfg) * cfg.batchSize <= cfg.maxInFlight)
              && (WorkerCount(cfg) == 16 || (WorkerCount(cfg) + 1) * cfg.batchSize > cfg.maxInFlight)
  {
    var n := cfg.maxInFlight / cfg.batchSize;
    assert n * cfg.batchSize <= cfg.maxInFlight < (n + 1) * cfg.batchSize;
    if n > 16 { assert 16 * cfg.batchSize <= n * cfg.batchSize; }
  }
}
