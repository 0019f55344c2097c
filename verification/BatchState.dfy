/** The batch publisher as a state machine. One step is what the event loop runs between two awaits.

    Items are numbered in the order `publish()` creates them. Steps are chosen freely among callers, deadline
    timers, flush workers and `stop()`, so every interleaving of the coroutines is a run.
 */
module BatchState {
  import opened Common

  datatype Phase = Queued | Flushing | Done

  datatype Status = Confirmed | Sent | Nacked | Returned | TimedOut | Errored | NotSent | Unknown

  datatype Reason =
    | AdmissionTimeout | PublisherClosed | ExceedsByteBudget | CallerCancelled | ChannelUnavailable
    | ConnectionLost | Shutdown | PublishTimeout | PublishError | TransportReason

  /** `own` outcomes are made by the publisher; the others come back from the transport. */
  datatype Outcome = Outcome(status: Status, reason: Reason, own: bool)

  function Own(status: Status, reason: Reason): Outcome { Outcome(status, reason, true) }

  /** The future `publish()` awaits. */
  datatype Caller = Unset | Pending | Answered(outcome: Outcome) | Withdrawn

  /** Where the `publish()` coroutine stands. `Granted`: the byte limiter has reserved the bytes and the
      coroutine has not resumed yet. */
  datatype Entry = Admitting | Granted | Putting | Waiting | Finished(outcome: Outcome) | Raised

  /** Where an enqueued item is kept. */
  datatype Holder = Nowhere | InQueue | InBatch(worker: nat)

  datatype Item = Item(
    size: nat,
    nbytes: nat,
    phase: Phase,
    final: Option<Outcome>,
    caller: Caller,
    entry: Entry,
    enqueued: bool,
    holder: Holder,
    sent: bool)

  datatype Place = Opening | Collecting | Readying | InFlight | Resolved | Gone

  datatype Worker = Worker(place: Place, batch: seq<nat>, channel: Option<nat>)

  /** A pooled channel a worker acquired: who holds it, and how often it was given back or thrown away. */
  datatype Channel = Channel(holder: Option<nat>, releases: nat, discards: nat)

  datatype Config = Config(batchSize: nat, maxInFlight: nat, flushWorkers: nat, byteLimit: Option<nat>)

  ghost predicate ValidConfig(cfg: Config) { cfg.batchSize > 0 && cfg.maxInFlight > 0 }

  datatype State = State(
    cfg: Config,
    items: seq<Item>,
    pending: seq<nat>,
    active: set<nat>,
    workers: seq<Worker>,
    channels: seq<Channel>,
    used: nat,
    closed: bool,
    stopped: bool)

  datatype Step =
    | Begin(size: nat)
    | AdmitGranted(i: nat)
    | AdmitResume(i: nat)
    | AdmitHandBack(i: nat, cancelled: bool)
    | AdmitRefused(i: nat, reason: Reason)
    | AdmitCancelled(i: nat)
    | PutGranted(i: nat)
    | PutTimedOut(i: nat)
    | PutCancelled(i: nat)
    | Expire(i: nat)
    | Resume(i: nat)
    | CancelRequest(i: nat)
    | CancelDeliver(i: nat)
    | Opened(w: nat)
    | OpenFailed(w: nat)
    | Take(w: nat)
    | EndCollect(w: nat)
    | DropClosed(w: nat)
    | GiveUp(w: nat)
    | StartFlush(w: nat, late: set<nat>)
    | Transmit(w: nat, i: nat)
    | Resolve(w: nat, live: seq<nat>, outcomes: seq<Outcome>)
    | EndFlush(w: nat)
    | FlushCrash(w: nat)
    | CancelWorker(w: nat)
    | StopBegin
    | StopDrain(left: seq<nat>)

  /** min(16, max(1, max_in_flight // batch_size)) unless set explicitly. */
  function WorkerCount(cfg: Config): nat
    requires ValidConfig(cfg)
  {
    if cfg.flushWorkers > 0 then cfg.flushWorkers
    else
      var n := cfg.maxInFlight / cfg.batchSize;
      if n < 1 then 1 else if n > 16 then 16 else n
  }

  function Init(cfg: Config): State
    requires ValidConfig(cfg)
  {
    State(cfg, [], [], {}, seq(WorkerCount(cfg), _ => Worker(Opening, [], None)), [], 0, false, false)
  }

  // ---------------------------------------------------------------- resolving items

  /** `finish()` on the item itself. */
  function Finish(it: Item, o: Outcome): Item {
    if it.phase == Done then it
    else it.(phase := Done, final := Some(o), caller := if it.caller == Pending then Answered(o) else it.caller)
  }

  function Released(it: Item): nat { if it.phase == Done then 0 else it.nbytes }

  /** The limiter never counts below zero. */
  function Minus(a: nat, b: nat): nat { if a > b then a - b else 0 }

  function FinishItem(s: State, i: nat, o: Outcome): State
    requires i < |s.items|
  {
    var it := s.items[i];
    s.(items := s.items[i := Finish(it, o)], used := Minus(s.used, Released(it)))
  }

  predicate NoRepeats(ids: seq<nat>) { forall j, k :: 0 <= j < k < |ids| ==> ids[j] != ids[k] }

  /** `finish()` on each item in turn, with its own outcome. */
  function FinishEach(s: State, ids: seq<nat>, outcomes: seq<Outcome>): (s': State)
    requires |ids| == |outcomes| && Below(ids, |s.items|)
    ensures |s'.items| == |s.items|
    decreases |ids|
  {
    var n := |ids|;
    if n == 0 then s
    else FinishItem(FinishEach(s, ids[..n - 1], outcomes[..n - 1]), ids[n - 1], outcomes[n - 1])
  }

  function Same(n: nat, o: Outcome): (outs: seq<Outcome>)
    ensures |outs| == n && forall k :: 0 <= k < n ==> outs[k] == o
  {
    seq(n, _ => o)
  }

  /** UNKNOWN for what may be on the wire, NOT_SENT for the rest. */
  function ShutdownOutcome(it: Item): Outcome {
    if it.phase == Flushing then Own(Unknown, Shutdown) else Own(NotSent, PublisherClosed)
  }

  function CrashOutcome(it: Item): Outcome {
    if it.phase == Flushing then Own(Unknown, ConnectionLost) else Own(Errored, PublishError)
  }

  function ShutdownOutcomes(items: seq<Item>, ids: seq<nat>): (outs: seq<Outcome>)
    requires Below(ids, |items|)
    ensures |outs| == |ids|
  {
    seq(|ids|, k requires 0 <= k < |ids| => ShutdownOutcome(items[ids[k]]))
  }

  function CrashOutcomes(items: seq<Item>, ids: seq<nat>): (outs: seq<Outcome>)
    requires Below(ids, |items|)
    ensures |outs| == |ids|
  {
    seq(|ids|, k requires 0 <= k < |ids| => CrashOutcome(items[ids[k]]))
  }

  /** The deadline timer: withdraw a queued item, answer TIMEOUT for one being flushed. */
  function ExpireItem(s: State, i: nat): State
    requires i < |s.items|
  {
    var it := s.items[i];
    if it.phase == Queued then FinishItem(s, i, Own(NotSent, AdmissionTimeout))
    else if it.phase == Flushing && it.caller == Pending then
      s.(items := s.items[i := it.(caller := Answered(Own(TimedOut, PublishTimeout)))])
    else s
  }

  // ---------------------------------------------------------------- moving items

  function Enqueue(s: State, i: nat): State
    requires i < |s.items|
  {
    s.(pending := s.pending + [i],
       items := s.items[i := s.items[i].(entry := Waiting, enqueued := true, holder := InQueue, caller := Pending)])
  }

  /** `put_nowait`, or wait for room. */
  function TryPut(s: State, i: nat): State
    requires i < |s.items|
  {
    if |s.pending| < s.cfg.maxInFlight then Enqueue(s, i)
    else s.(items := s.items[i := s.items[i].(entry := Putting)])
  }

  /** A worker removes the head of the queue and keeps it only if nobody withdrew it. */
  function TakeHead(s: State, w: nat): State
    requires w < |s.workers| && s.pending != [] && s.pending[0] < |s.items|
  {
    var i := s.pending[0];
    var it := s.items[i];
    var s1 := s.(pending := s.pending[1..]);
    if it.phase == Queued then
      s1.(active := s.active + {i},
          items := s.items[i := it.(holder := InBatch(w))],
          workers := s.workers[w := s.workers[w].(batch := s.workers[w].batch + [i])])
    else s1.(items := s.items[i := it.(holder := Nowhere)])
  }

  function Rehouse(items: seq<Item>, ids: seq<nat>, holder: Holder): (items': seq<Item>)
    ensures |items'| == |items|
    ensures forall k :: 0 <= k < |items| ==> items'[k] == if k in ids then items[k].(holder := holder) else items[k]
  {
    seq(|items|, k requires 0 <= k < |items| => if k in ids then items[k].(holder := holder) else items[k])
  }

  /** A worker lets go of its batch. */
  function ClearBatch(s: State, w: nat, place: Place): State
    requires w < |s.workers|
  {
    var b := s.workers[w].batch;
    s.(active := s.active - (set i | i in b),
       items := Rehouse(s.items, b, Nowhere),
       workers := s.workers[w := s.workers[w].(batch := [], place := place)])
  }

  /** A queued item whose deadline has passed is withdrawn; the rest go FLUSHING. */
  function MarkItem(s: State, i: nat, late: bool): State
    requires i < |s.items|
  {
    if s.items[i].phase != Queued then s
    else if late then FinishItem(s, i, Own(NotSent, AdmissionTimeout))
    else s.(items := s.items[i := s.items[i].(phase := Flushing)])
  }

  function MarkEach(s: State, ids: seq<nat>, late: set<nat>): (s': State)
    requires Below(ids, |s.items|)
    ensures |s'.items| == |s.items|
    decreases |ids|
  {
    var n := |ids|;
    if n == 0 then s
    else MarkItem(MarkEach(s, ids[..n - 1], late), ids[n - 1], ids[n - 1] in late)
  }

  // ---------------------------------------------------------------- channels

  function AcquireChannel(s: State, w: nat): State
    requires w < |s.workers|
  {
    s.(channels := s.channels + [Channel(Some(w), 0, 0)],
       workers := s.workers[w := s.workers[w].(channel := Some(|s.channels|))])
  }

  function GiveBack(s: State, w: nat, discard: bool): State
    requires w < |s.workers|
  {
    match s.workers[w].channel
    case None => s
    case Some(c) =>
      if c >= |s.channels| then s
      else
        var ch := s.channels[c];
        s.(channels := s.channels[c := Channel(None,
                                               if discard then ch.releases else ch.releases + 1,
                                               if discard then ch.discards + 1 else ch.discards)],
           workers := s.workers[w := s.workers[w].(channel := None)])
  }

  predicate MidFlush(s: State, w: nat)
    requires w < |s.workers|
  {
    exists i :: i in s.workers[w].batch && i < |s.items| && s.items[i].phase == Flushing
  }

  // ---------------------------------------------------------------- steps

  /** Exceptions and outcomes a raised publish can be mapped to. */
  predicate GatheredOutcome(o: Outcome) {
    !o.own || o == Own(Unknown, ConnectionLost) || o == Own(Unknown, TransportReason)
  }

  predicate Housed(s: State) {
    && Below(s.pending, |s.items|)
    && (forall i :: i in s.active ==> i < |s.items|)
    && (forall w :: 0 <= w < |s.workers| ==> Below(s.workers[w].batch, |s.items|))
  }

  predicate At(s: State, w: nat, place: Place) { w < |s.workers| && s.workers[w].place == place }

  /** The steps of `publish()` and its timer. */
  predicate CallerSide(step: Step) {
    || step.Begin? || step.AdmitGranted? || step.AdmitHandBack? || step.AdmitResume? || step.AdmitRefused?
    || step.AdmitCancelled? || step.PutGranted? || step.PutTimedOut? || step.PutCancelled?
    || step.Expire? || step.Resume? || step.CancelRequest? || step.CancelDeliver?
  }

  predicate CallerEnabled(s: State, step: Step)
    requires CallerSide(step)
  {
    match step
    case Begin(_) => true
    case AdmitGranted(i) =>
      i < |s.items| && s.items[i].entry == Admitting && s.cfg.byteLimit.Some?
      && s.used + s.items[i].size <= s.cfg.byteLimit.value
    case AdmitResume(i) => i < |s.items| && s.items[i].entry == Granted
    case AdmitHandBack(i, _) => i < |s.items| && s.items[i].entry == Granted
    case AdmitRefused(i, reason) =>
      i < |s.items| && s.items[i].entry == Admitting && (reason == AdmissionTimeout || reason == PublisherClosed)
    case AdmitCancelled(i) => i < |s.items| && s.items[i].entry == Admitting
    case PutGranted(i) => i < |s.items| && s.items[i].entry == Putting && |s.pending| < s.cfg.maxInFlight
    case PutTimedOut(i) => i < |s.items| && s.items[i].entry == Putting
    case PutCancelled(i) => i < |s.items| && s.items[i].entry == Putting
    case Expire(i) => i < |s.items| && s.items[i].entry == Waiting
    case Resume(i) => i < |s.items| && s.items[i].entry == Waiting && s.items[i].caller.Answered?
    case CancelRequest(i) => i < |s.items| && s.items[i].entry == Waiting && s.items[i].caller == Pending
    case CancelDeliver(i) =>
      i < |s.items| && s.items[i].entry == Waiting && (s.items[i].caller == Withdrawn || s.items[i].caller.Answered?)
  }

  ghost predicate WorkerEnabled(s: State, step: Step)
    requires !CallerSide(step) && Housed(s)
  {
    match step
    case Opened(w) => (At(s, w, Opening) || At(s, w, Readying)) && s.workers[w].channel == None
    case OpenFailed(w) => At(s, w, Opening)
    case Take(w) => At(s, w, Collecting) && |s.workers[w].batch| < s.cfg.batchSize && s.pending != []
    case EndCollect(w) => At(s, w, Collecting) && s.workers[w].batch != []
    case DropClosed(w) => At(s, w, Readying) && s.workers[w].channel.Some?
    case GiveUp(w) => At(s, w, Readying) && s.workers[w].channel == None
    case StartFlush(w, _) => At(s, w, Readying) && s.workers[w].channel.Some?
    case Transmit(w, i) => At(s, w, InFlight) && i in s.workers[w].batch && s.items[i].phase == Flushing
    case Resolve(w, live, outcomes) =>
      && At(s, w, InFlight) && |outcomes| == |live| && NoRepeats(live) && Below(live, |s.items|)
      && (forall i :: i in live <==> i in s.workers[w].batch && s.items[i].phase == Flushing)
      && (forall o :: o in outcomes ==> GatheredOutcome(o))
    case EndFlush(w) => At(s, w, Resolved)
    case FlushCrash(w) => At(s, w, InFlight) || At(s, w, Resolved)
    case CancelWorker(w) => w < |s.workers| && s.workers[w].place != Gone
    case StopBegin => true
    case StopDrain(left) =>
      && s.closed && (forall w :: 0 <= w < |s.workers| ==> s.workers[w].place == Gone)
      && NoRepeats(left) && Below(left, |s.items|) && (forall i :: i in left <==> i in s.active)
  }

  ghost predicate Enabled(s: State, step: Step) {
    Housed(s) && if CallerSide(step) then CallerEnabled(s, step) else WorkerEnabled(s, step)
  }

  function MoveTo(s: State, w: nat, place: Place): State
    requires w < |s.workers|
  {
    s.(workers := s.workers[w := s.workers[w].(place := place)])
  }

  function SetEntry(s: State, i: nat, entry: Entry): State
    requires i < |s.items|
  {
    s.(items := s.items[i := s.items[i].(entry := entry)])
  }

  function NewItem(size: nat, entry: Entry): Item {
    Item(size, 0, Queued, None, Unset, entry, false, Nowhere, false)
  }

  function BeginPublish(s: State, size: nat): State {
    var i := |s.items|;
    if s.closed then s.(items := s.items + [NewItem(size, Finished(Own(NotSent, PublisherClosed)))])
    else if s.cfg.byteLimit.Some? then
      if size > s.cfg.byteLimit.value then
        s.(items := s.items + [NewItem(size, Finished(Own(NotSent, ExceedsByteBudget)))])
      else s.(items := s.items + [NewItem(size, Admitting)])
    else TryPut(s.(items := s.items + [NewItem(size, Putting)]), i)
  }

  /** The cancelled or crashed worker resolves its items, gives its channel up and ends. */
  function EndWorker(s: State, w: nat): State
    requires w < |s.workers| && Housed(s)
  {
    var b := s.workers[w].batch;
    var mid := MidFlush(s, w);
    var s1 := FinishEach(s, b, ShutdownOutcomes(s.items, b));
    FinishEachFrame(s, b, ShutdownOutcomes(s.items, b));
    GiveBack(ClearBatch(s1, w, Gone), w, mid)
  }

  /** No channel could be acquired: the batch never left the client. */
  function FailAll(s: State, w: nat): State
    requires w < |s.workers| && Housed(s)
  {
    var b := s.workers[w].batch;
    FinishEachFrame(s, b, Same(|b|, Own(NotSent, ChannelUnavailable)));
    ClearBatch(FinishEach(s, b, Same(|b|, Own(NotSent, ChannelUnavailable))), w, Collecting)
  }

  /** The flush itself failed: report what was not resolved and replace the channel. */
  function CrashFlush(s: State, w: nat): State
    requires w < |s.workers| && Housed(s)
  {
    var b := s.workers[w].batch;
    FinishEachFrame(s, b, CrashOutcomes(s.items, b));
    GiveBack(ClearBatch(FinishEach(s, b, CrashOutcomes(s.items, b)), w, Collecting), w, true)
  }

  /** `stop()` after every worker has ended: resolve what is left, then drain the queue. */
  function DrainAll(s: State, left: seq<nat>): State
    requires Housed(s) && Below(left, |s.items|)
  {
    var s1 := FinishEach(s, left, ShutdownOutcomes(s.items, left));
    FinishEachFrame(s, left, ShutdownOutcomes(s.items, left));
    var s2 := FinishEach(s1, s.pending, Same(|s.pending|, Own(NotSent, PublisherClosed)));
    s2.(pending := [], active := {}, items := Rehouse(s2.items, s.pending + left, Nowhere), stopped := true)
  }

  function CallerStep(s: State, step: Step): State
    requires CallerSide(step) && CallerEnabled(s, step)
  {
    match step
    case Begin(size) => BeginPublish(s, size)
    case AdmitGranted(i) => SetEntry(s.(used := s.used + s.items[i].size), i, Granted)
    case AdmitResume(i) => TryPut(s.(items := s.items[i := s.items[i].(nbytes := s.items[i].size)]), i)
    case AdmitHandBack(i, cancelled) =>
      SetEntry(s.(used := Minus(s.used, s.items[i].size)), i,
               if cancelled then Raised else Finished(Own(NotSent, AdmissionTimeout)))
    case AdmitRefused(i, reason) => SetEntry(s, i, Finished(Own(NotSent, reason)))
    case AdmitCancelled(i) => SetEntry(s, i, Raised)
    case PutGranted(i) => Enqueue(s, i)
    case PutTimedOut(i) =>
      SetEntry(FinishItem(s, i, Own(NotSent, AdmissionTimeout)), i, Finished(Own(NotSent, AdmissionTimeout)))
    case PutCancelled(i) => SetEntry(FinishItem(s, i, Own(NotSent, CallerCancelled)), i, Raised)
    case Expire(i) => ExpireItem(s, i)
    case Resume(i) => SetEntry(s, i, Finished(s.items[i].caller.outcome))
    case CancelRequest(i) => s.(items := s.items[i := s.items[i].(caller := Withdrawn)])
    case CancelDeliver(i) =>
      SetEntry(if s.items[i].phase == Queued then FinishItem(s, i, Own(NotSent, CallerCancelled)) else s, i, Raised)
  }

  ghost function WorkerStep(s: State, step: Step): State
    requires !CallerSide(step) && Housed(s) && WorkerEnabled(s, step)
  {
    match step
    case Opened(w) => AcquireChannel(if At(s, w, Opening) then MoveTo(s, w, Collecting) else s, w)
    case OpenFailed(w) => MoveTo(s, w, Collecting)
    case Take(w) => TakeHead(s, w)
    case EndCollect(w) => MoveTo(s, w, Readying)
    case DropClosed(w) => GiveBack(s, w, false)
    case GiveUp(w) => FailAll(s, w)
    case StartFlush(w, late) =>
      MarkEachFrame(s, s.workers[w].batch, late);
      MoveTo(MarkEach(s, s.workers[w].batch, late), w, InFlight)
    case Transmit(w, i) => s.(items := s.items[i := s.items[i].(sent := true)])
    case Resolve(w, live, outcomes) =>
      FinishEachFrame(s, live, outcomes);
      MoveTo(FinishEach(s, live, outcomes), w, Resolved)
    case EndFlush(w) => ClearBatch(s, w, Collecting)
    case FlushCrash(w) => CrashFlush(s, w)
    case CancelWorker(w) => EndWorker(s, w)
    case StopBegin => s.(closed := true)
    case StopDrain(left) => DrainAll(s, left)
  }

  ghost function Apply(s: State, step: Step): State
    requires Enabled(s, step)
  {
    if CallerSide(step) then CallerStep(s, step) else WorkerStep(s, step)
  }

  // ---------------------------------------------------------------- what resolving touches

  /** Resolving items changes nothing but the items and the byte budget. */
  ghost predicate OnlyItems(s: State, s': State) {
    s' == s.(items := s'.items, used := s'.used) && |s'.items| == |s.items|
  }

  lemma FinishEachFrame(s: State, ids: seq<nat>, outcomes: seq<Outcome>)
    requires |ids| == |outcomes| && Below(ids, |s.items|)
    ensures OnlyItems(s, FinishEach(s, ids, outcomes))
    decreases |ids|
  {
    if |ids| > 0 { FinishEachFrame(s, ids[..|ids| - 1], outcomes[..|ids| - 1]); }
  }

  lemma MarkEachFrame(s: State, ids: seq<nat>, late: set<nat>)
    requires Below(ids, |s.items|)
    ensures OnlyItems(s, MarkEach(s, ids, late))
    decreases |ids|
  {
    if |ids| > 0 { MarkEachFrame(s, ids[..|ids| - 1], late); }
  }
}
