/** One supervised consumer: what the supervision passes, the server's cancel frames and the rest of the client do to
    its record.

    `tables[u]` says whether channel `u` lists the consumer's tag; the last channel is the current one. A pass suspends
    while it waits for the channel, for the probe of the queue, for the new consume, and for undoing it. The consume
    takes effect on whatever channel is current then; undoing it goes to the channel the pass had looked at. The record
    is visible to the passes while its registration still waits for the channel to attach the callback to.
 */
module Supervisor {
  import opened Common

  const BACKOFF_INITIAL := 1.0
  const BACKOFF_MAX := 30.0
  const MISSES_TO_CANCEL := 2

  datatype Record = Record(
    stopped: bool, cancelled: bool, watched: Option<nat>, confirmed: bool, missed: nat,
    retryDelay: real, nextAttempt: real)

  /** `taken`: since the pass asked for its consume, the channel then current has listed the tag, so that the consume
      can return: it took effect, or found that somebody else had subscribed first. */
  datatype Stage =
    | Resting | Fetching | Probing(channel: nat) | Consuming(channel: nat, taken: bool) | Undoing(channel: nat)

  datatype Event = Cancelled(at: real) | Resumed | Probe(at: real, gap: real)

  /** `ours`: the channel on which a pass's own consume is listed, while nobody has reported it as resumed;
      `registering`: the registration has not come to its channel yet. */
  datatype State = State(
    callbacks: bool, now: real, tables: seq<bool>, ours: Option<nat>, attached: set<nat>, registering: bool,
    record: Record, stage: Stage, trace: seq<Event>)

  // ---------------------------------------------------------------- the code

  function MarkCancelled(s: State): State {
    s.(record := s.record.(cancelled := true, missed := 0, retryDelay := BACKOFF_INITIAL,
                           nextAttempt := s.now + BACKOFF_INITIAL),
       trace := s.trace + [Cancelled(s.now)])
  }

  function MarkResumed(s: State): State {
    s.(record := s.record.(cancelled := false, missed := 0, retryDelay := BACKOFF_INITIAL),
       ours := None, stage := Resting, trace := s.trace + [Resumed])
  }

  function OnCancelFrame(s: State): State {
    if !s.record.stopped && !s.record.cancelled then MarkCancelled(s) else s
  }

  function Watch(s: State, u: nat): State {
    if s.record.watched == Some(u) || !s.callbacks then s
    else s.(attached := s.attached + {u}, record := s.record.(watched := Some(u), confirmed := false))
  }

  /** `register` once it has the channel, or none. */
  function Attach(s: State, channel: Option<nat>): State
    requires channel.Some? ==> channel.value < |s.tables|
  {
    var s0 := s.(registering := false);
    if channel == None then s0
    else
      var s1 := Watch(s0, channel.value);
      if s.tables[channel.value] then s1.(record := s1.record.(confirmed := s1.record.watched == channel)) else s1
  }

  /** A pass up to its first suspension. */
  function CheckStart(s: State, closed: bool): State {
    if s.record.stopped then s
    else if closed then s.(record := s.record.(missed := 0))
    else s.(stage := Fetching)
  }

  /** The callback is attached, and seeing the tag afterwards confirms the watch. */
  function Observe(s: State, u: nat): State
    requires u < |s.tables|
  {
    var s1 := Watch(s, u);
    if s.tables[u] && s1.record.watched == Some(u) then s1.(record := s1.record.(confirmed := true)) else s1
  }

  function Judge(s: State, u: nat): State
    requires u < |s.tables|
  {
    if s.record.cancelled then Recover(s, u)
    else if s.tables[u] || s.record.confirmed then s.(stage := Resting, record := s.record.(missed := 0))
    else if s.record.missed + 1 < MISSES_TO_CANCEL then
      s.(stage := Resting, record := s.record.(missed := s.record.missed + 1))
    else Recover(MarkCancelled(s), u)
  }

  /** The pass once it has the channel; nothing when there is none or it is closed. */
  function Check(s: State, channel: Option<nat>): State
    requires channel.Some? ==> channel.value < |s.tables|
  {
    if channel == None then s.(stage := Resting) else Judge(Observe(s, channel.value), channel.value)
  }

  function Recover(s: State, u: nat): State
    requires u < |s.tables|
  {
    if s.tables[u] then MarkResumed(s) else TryResubscribe(s, u)
  }

  function TryResubscribe(s: State, u: nat): State {
    var r := s.record;
    if s.now < r.nextAttempt then s.(stage := Resting)
    else s.(record := r.(nextAttempt := s.now + r.retryDelay, retryDelay := MinReal(r.retryDelay * 2.0, BACKOFF_MAX)),
            stage := Probing(u), trace := s.trace + [Probe(s.now, r.retryDelay)])
  }

  function Probed(s: State, exists_: bool): State
    requires s.stage.Probing? && s.stage.channel < |s.tables|
  {
    if !exists_ || s.record.stopped then s.(stage := Resting)
    else if s.tables[s.stage.channel] then MarkResumed(s)
    else s.(stage := Consuming(s.stage.channel, Final(s.tables)))
  }

  /** The consume completed, or found that somebody else had subscribed first; or it raised. */
  function Consumed(s: State, raised: bool): State
    requires s.stage.Consuming?
  {
    if raised then s.(stage := Resting)
    else if s.record.stopped then s.(stage := Undoing(s.stage.channel))
    else MarkResumed(s)
  }

  // ---------------------------------------------------------------- the machine

  /** `Frame` is the server's cancel and `Withdraws` the transport's own; `Registers` is the pass's consume taking
      effect and `Appears` anybody else's; `PassFails` ends a pass early, by an exception or because its task is
      cancelled. */
  datatype Step =
    | Attaches(fetched: Option<nat>)
    | Frame(channel: nat) | Withdraws(channel: nat) | Appears(channel: nat) | Registers(channel: nat)
    | Reconnects(listed: bool) | Stops | Ticks(span: real)
    | Pass(closed: bool) | Fetched(fetched: Option<nat>) | ProbeAnswers(found: bool) | ConsumeAnswers(raised: bool)
    | UndoAnswers(channel: nat, ok: bool) | PassFails

  predicate Enabled(s: State, step: Step) {
    match step
    case Attaches(channel) => s.registering && (channel.Some? ==> channel.value < |s.tables|)
    case Frame(u) => u < |s.tables|
    case Withdraws(u) => u < |s.tables| && s.record.stopped
    case Appears(u) => u < |s.tables| && !s.tables[u]
    case Registers(u) => s.stage.Consuming? && u + 1 == |s.tables| && !s.tables[u]
    case Reconnects(_) => true
    case Stops => true
    case Ticks(span) => span >= 0.0
    case Pass(_) => s.stage == Resting
    case Fetched(channel) => s.stage == Fetching && (channel.Some? ==> channel.value < |s.tables|)
    case ProbeAnswers(_) => s.stage.Probing? && s.stage.channel < |s.tables|
    case ConsumeAnswers(raised) => s.stage.Consuming? && (raised || s.stage.taken)
    case UndoAnswers(u, _) => s.stage == Undoing(u) && u < |s.tables|
    case PassFails => s.stage != Resting
  }

  /** The tag leaves a channel. */
  function Unlist(s: State, u: nat): State
    requires u < |s.tables|
  {
    s.(tables := s.tables[u := false], ours := if s.ours == Some(u) then None else s.ours)
  }

  /** The tag joins a channel, which lets a consume that is under way there return. */
  function Enlist(s: State, u: nat): State
    requires u < |s.tables|
  {
    s.(tables := s.tables[u := true], stage := if u + 1 == |s.tables| then Noticed(s.stage) else s.stage)
  }

  function Noticed(stage: Stage): Stage { if stage.Consuming? then stage.(taken := true) else stage }

  /** A cancel frame takes the tag off its channel, and reaches the record if its channel is watched. */
  function Apply(s: State, step: Step): State
    requires Enabled(s, step)
  {
    match step
    case Attaches(channel) => Attach(s, channel)
    case Frame(u) => if u in s.attached then OnCancelFrame(Unlist(s, u)) else Unlist(s, u)
    case Withdraws(u) => Unlist(s, u)
    case Appears(u) => Enlist(s, u)
    case Registers(u) => Enlist(s, u).(ours := Some(u))
    case Reconnects(listed) => s.(tables := s.tables + [listed], stage := if listed then Noticed(s.stage) else s.stage)
    case Stops => s.(record := s.record.(stopped := true))
    case Ticks(span) => s.(now := s.now + span)
    case Pass(closed) => CheckStart(s, closed)
    case Fetched(channel) => Check(s, channel)
    case ProbeAnswers(found) => Probed(s, found)
    case ConsumeAnswers(raised) => Consumed(s, raised)
    case UndoAnswers(u, ok) => (if ok then Unlist(s, u) else s).(stage := Resting)
    case PassFails => s.(stage := Resting)
  }

  function Next(s: State, step: Step): State { if Enabled(s, step) then Apply(s, step) else s }

  // ---------------------------------------------------------------- what a trace must look like

  function Says(e: Event): Option<bool> {
    match e case Cancelled(_) => Some(true) case Resumed => Some(false) case _ => None
  }

  /** The last report was a cancellation. */
  predicate Between(t: seq<Event>) { Open(Says, t) }

  /** The probes since then. */
  function Probes(t: seq<Event>): nat {
    if t == [] then 0
    else match Final(t)
         case Cancelled(_) => 0
         case Probe(_, _) => Probes(Prefix(t)) + 1
         case Resumed => Probes(Prefix(t))
  }

  /** When the next probe is due: a delay after the cancellation or after the last probe. */
  function Due(t: seq<Event>): real {
    if t == [] then 0.0
    else match Final(t)
         case Cancelled(at) => at + BACKOFF_INITIAL
         case Probe(at, gap) => at + gap
         case Resumed => Due(Prefix(t))
  }

  /** The wait after so many probes: doubled each time, and capped. */
  function Backoff(n: nat): real {
    if n == 0 then BACKOFF_INITIAL else MinReal(Backoff(n - 1) * 2.0, BACKOFF_MAX)
  }

  ghost predicate Allows(t: seq<Event>, e: Event) {
    match e
    case Cancelled(_) => !Between(t)
    case Resumed => Between(t)
    case Probe(at, gap) => Between(t) && at >= Due(t) && gap == Backoff(Probes(t))
  }

  ghost predicate Inv(s: State) {
    && Lawful(Allows, s.trace)
    && s.record.cancelled == Between(s.trace)
    && (s.record.cancelled ==> s.record.retryDelay == Backoff(Probes(s.trace)) && s.record.nextAttempt == Due(s.trace))
    && (s.stage.Probing? || s.stage.Consuming? || s.stage.Undoing? ==>
        s.record.cancelled && s.stage.channel < |s.tables|)
    && (s.stage.Undoing? ==> s.record.stopped)
    && (s.ours.Some? ==> s.ours.value < |s.tables| && s.tables[s.ours.value])
  }

  /** In closed form: powers of two from one second, capped at thirty. */
  lemma {:induction false} BackoffDoubles(n: nat)
    ensures Backoff(n) == MinReal(Power(n), BACKOFF_MAX)
  {
    if n > 0 {
      BackoffDoubles(n - 1);
      PowerPositive(n - 1);
    }
  }

  lemma MarkCancelledKeeps(s: State)
    requires Inv(s) && !s.record.cancelled
    ensures Inv(MarkCancelled(s))
  {
    Snoc(s.trace, Cancelled(s.now));
  }

  lemma MarkResumedKeeps(s: State)
    requires Inv(s) && s.record.cancelled
    ensures Inv(MarkResumed(s))
  {
    Snoc(s.trace, Resumed);
  }

  lemma TryResubscribeKeeps(s: State, u: nat)
    requires Inv(s) && s.record.cancelled && u < |s.tables|
    ensures Inv(TryResubscribe(s, u))
  {
    Snoc(s.trace, Probe(s.now, s.record.retryDelay));
  }

  lemma RecoverKeeps(s: State, u: nat)
    requires Inv(s) && s.record.cancelled && u < |s.tables|
    ensures Inv(Recover(s, u))
  {
    MarkResumedKeeps(s);
    TryResubscribeKeeps(s, u);
  }

  lemma ObserveKeeps(s: State, u: nat)
    requires Inv(s) && u < |s.tables|
    ensures Inv(Observe(s, u)) && Observe(s, u).tables == s.tables
  {
  }

  lemma JudgeKeeps(s: State, u: nat)
    requires Inv(s) && u < |s.tables|
    ensures Inv(Judge(s, u))
  {
    if s.record.cancelled {
      RecoverKeeps(s, u);
    } else if !s.tables[u] && !s.record.confirmed && s.record.missed + 1 >= MISSES_TO_CANCEL {
      MarkCancelledKeeps(s);
      RecoverKeeps(MarkCancelled(s), u);
    }
  }

  lemma CheckKeeps(s: State, channel: Option<nat>)
    requires Inv(s) && (channel.Some? ==> channel.value < |s.tables|)
    ensures Inv(Check(s, channel))
  {
    if channel.Some? {
      ObserveKeeps(s, channel.value);
      JudgeKeeps(Observe(s, channel.value), channel.value);
    }
  }

  /** What a pass with a channel in hand leaves alone. */
  lemma CheckFrame(s: State, channel: Option<nat>)
    requires channel.Some? ==> channel.value < |s.tables|
    ensures var s2 := Check(s, channel);
            && s2.tables == s.tables && s2.record.stopped == s.record.stopped
            && (s2.stage == Resting || s2.stage.Probing?)
            && s2.ours == (if s.record.cancelled && !s2.record.cancelled then None else s.ours)
  {
    if channel.Some? {
      var s1 := Observe(s, channel.value);
      JudgeFrame(s1, channel.value);
    }
  }

  lemma JudgeFrame(s: State, u: nat)
    requires u < |s.tables|
    ensures var s2 := Judge(s, u);
            && s2.callbacks == s.callbacks && s2.attached == s.attached
            && s2.record.watched == s.record.watched && s2.record.confirmed == s.record.confirmed
            && s2.tables == s.tables && s2.record.stopped == s.record.stopped
            && (s2.stage == Resting || s2.stage.Probing?)
            && s2.ours == (if s.record.cancelled && !s2.record.cancelled then None else s.ours)
  {
  }

  lemma ConsumedKeeps(s: State, raised: bool)
    requires Inv(s) && s.stage.Consuming?
    ensures Inv(Consumed(s, raised))
  {
    if !raised && !s.record.stopped { MarkResumedKeeps(s); }
  }

  lemma UnlistKeeps(s: State, u: nat)
    requires Inv(s) && u < |s.tables|
    ensures Inv(Unlist(s, u))
  {
  }

  lemma EnlistKeeps(s: State, u: nat)
    requires Inv(s) && u < |s.tables|
    ensures Inv(Enlist(s, u)) && Inv(Enlist(s, u).(ours := Some(u)))
  {
  }

  lemma AttachKeeps(s: State, channel: Option<nat>)
    requires Inv(s) && (channel.Some? ==> channel.value < |s.tables|)
    ensures Inv(Attach(s, channel))
  {
  }

  lemma RestKeeps(s: State)
    requires Inv(s)
    ensures Inv(s.(stage := Resting))
  {
  }

  lemma StepKeeps(s: State, step: Step)
    requires Inv(s)
    ensures Inv(Next(s, step))
  {
    if Enabled(s, step) {
      match step
      case Attaches(channel) => AttachKeeps(s, channel);
      case Frame(u) => FrameKeeps(s, u);
      case Withdraws(u) => UnlistKeeps(s, u);
      case Appears(u) => EnlistKeeps(s, u);
      case Registers(u) => EnlistKeeps(s, u);
      case Fetched(channel) => CheckKeeps(s, channel);
      case ProbeAnswers(found) => ProbedKeeps(s, found);
      case ConsumeAnswers(raised) => ConsumedKeeps(s, raised);
      case UndoAnswers(u, ok) =>
        UnlistKeeps(s, u);
        RestKeeps(if ok then Unlist(s, u) else s);
      case PassFails => RestKeeps(s);
      case _ => OwnStepKeeps(s, step);
    }
  }

  lemma FrameKeeps(s: State, u: nat)
    requires Inv(s) && u < |s.tables|
    ensures Inv(Next(s, Frame(u)))
  {
    UnlistKeeps(s, u);
    if !s.record.cancelled { MarkCancelledKeeps(Unlist(s, u)); }
  }

  lemma ProbedKeeps(s: State, found: bool)
    requires Inv(s) && s.stage.Probing?
    ensures Inv(Probed(s, found))
  {
    MarkResumedKeeps(s);
  }

  lemma OwnStepKeeps(s: State, step: Step)
    requires Inv(s) && Enabled(s, step) && (step.Reconnects? || step.Stops? || step.Ticks? || step.Pass?)
    ensures Inv(Next(s, step))
  {
  }

  // ---------------------------------------------------------------- whole runs

  function Start(callbacks: bool, listed: bool): State {
    State(callbacks, 0.0, [listed], None, {}, true, Record(false, false, None, false, 0, BACKOFF_INITIAL, 0.0), Resting,
          [])
  }

  /** The state after a run. */
  function Ran(callbacks: bool, listed: bool, steps: seq<Step>): State {
    Reached(Next, Start(callbacks, listed), steps)
  }

  lemma RunKeeps(callbacks: bool, listed: bool, steps: seq<Step>)
    ensures Inv(Ran(callbacks, listed, steps))
  {
    forall s, step | Inv(s) ensures Inv(Next(s, step)) { StepKeeps(s, step); }
    ReachedKeeps(Next, Inv, Start(callbacks, listed), steps);
  }

  // ---------------------------------------------------------------- what is promised of every run

  /** Cancelled and resumed strictly alternate, cancelled first, and the record is marked exactly in between. */
  lemma ReportsAlternate(callbacks: bool, listed: bool, steps: seq<Step>)
    ensures var s := Ran(callbacks, listed, steps);
            && (forall i :: 0 <= i < |Reports(Says, s.trace)| ==> (Reports(Says, s.trace)[i] <==> i % 2 == 0))
            && (s.record.cancelled <==> |Reports(Says, s.trace)| % 2 == 1)
  {
    RunKeeps(callbacks, listed, steps);
    LawfulAlternates(Allows, Says, Ran(callbacks, listed, steps).trace);
  }

  /** A probe happens only while cancelled and not before it is due; the wait after it doubles from one second to
      thirty and starts over with each cancellation. */
  lemma ProbesAreSpaced(callbacks: bool, listed: bool, steps: seq<Step>, i: nat)
    requires i < |Ran(callbacks, listed, steps).trace| && Ran(callbacks, listed, steps).trace[i].Probe?
    ensures var t := Ran(callbacks, listed, steps).trace;
            && Between(t[..i]) && t[i].at >= Due(t[..i])
            && t[i].gap == Backoff(Probes(t[..i])) == MinReal(Power(Probes(t[..i])), BACKOFF_MAX)
  {
    RunKeeps(callbacks, listed, steps);
    LawfulAt(Allows, Ran(callbacks, listed, steps).trace, i);
    BackoffDoubles(Probes(Ran(callbacks, listed, steps).trace[..i]));
  }

  // ---------------------------------------------------------------- polling

  /** The callback is trusted on this channel: the tag was seen there while it was attached. */
  predicate Trusted(s: State, u: nat) { s.callbacks && s.record.watched == Some(u) && s.record.confirmed }

  /** The passes in a row that looked at a channel, missed the tag and could not rely on the callback there, since the
      last one that did not, found the channel closed, or was reported on. */
  function Streak(callbacks: bool, listed: bool, steps: seq<Step>): nat
    decreases |steps|
  {
    if steps == [] || Ran(callbacks, listed, steps).record.cancelled then 0
    else Counts(Ran(callbacks, listed, Prefix(steps)), Final(steps), Streak(callbacks, listed, Prefix(steps)))
  }

  function Counts(s: State, step: Step, n: nat): nat {
    if !Enabled(s, step) then n
    else match step
         case Fetched(Some(u)) => if s.tables[u] || Trusted(s, u) then 0 else n + 1
         case Pass(closed) => if closed && !s.record.stopped then 0 else n
         case _ => n
  }

  /** Without callbacks nothing is ever watched, and a marked record counts nothing. */
  ghost predicate Tidy(s: State) {
    && (!s.callbacks ==> s.record.watched == None && !s.record.confirmed)
    && s.record.missed <= 1 && (s.record.cancelled ==> s.record.missed == 0)
  }

  lemma TidyPass(s: State, channel: Option<nat>)
    requires Tidy(s) && (channel.Some? ==> channel.value < |s.tables|)
    ensures Tidy(Check(s, channel))
  {
  }

  lemma TidyStays(s: State, step: Step)
    requires Tidy(s)
    ensures Tidy(Next(s, step))
  {
    if step.Fetched? && Enabled(s, step) { TidyPass(s, step.fetched); } else { TidyOtherwise(s, step); }
  }

  lemma TidyOtherwise(s: State, step: Step)
    requires Tidy(s) && (step.Fetched? ==> !Enabled(s, step))
    ensures Tidy(Next(s, step))
  {
  }

  lemma TidyAlways(callbacks: bool, listed: bool, steps: seq<Step>)
    ensures Tidy(Ran(callbacks, listed, steps))
  {
    forall s, step | Tidy(s) ensures Tidy(Next(s, step)) { TidyStays(s, step); }
    ReachedKeeps(Next, Tidy, Start(callbacks, listed), steps);
  }

  /** How one step changes the count. */
  lemma MissedStep(s: State, step: Step)
    requires Inv(s) && Tidy(s)
    ensures Next(s, step).record.missed ==
            if Next(s, step).record.cancelled then 0 else Counts(s, step, s.record.missed)
  {
    if step.Fetched? && Enabled(s, step) { MissedPass(s, step.fetched); } else { MissedOtherwise(s, step); }
  }

  lemma MissedPass(s: State, channel: Option<nat>)
    requires Tidy(s) && (channel.Some? ==> channel.value < |s.tables|)
    ensures var s2 := Check(s, channel);
            s2.record.missed ==
            if s2.record.cancelled then 0
            else if channel == None then s.record.missed
            else if s.tables[channel.value] || Trusted(s, channel.value) then 0
            else s.record.missed + 1
  {
  }

  lemma MissedOtherwise(s: State, step: Step)
    requires Inv(s) && Tidy(s) && (step.Fetched? ==> !Enabled(s, step))
    ensures Next(s, step).record.missed ==
            if Next(s, step).record.cancelled then 0 else Counts(s, step, s.record.missed)
  {
  }

  lemma {:induction false} StreakIsCounted(callbacks: bool, listed: bool, steps: seq<Step>)
    ensures Ran(callbacks, listed, steps).record.missed == Streak(callbacks, listed, steps)
    decreases |steps|
  {
    TidyAlways(callbacks, listed, steps);
    if steps != [] {
      StreakIsCounted(callbacks, listed, Prefix(steps));
      TidyAlways(callbacks, listed, Prefix(steps));
      RunKeeps(callbacks, listed, Prefix(steps));
      MissedStep(Ran(callbacks, listed, Prefix(steps)), Final(steps));
    }
  }

  /** A pass marks an unmarked record exactly when it is the second in a row to miss the tag with no callback to rely
      on. */
  lemma TwoMissesCancel(callbacks: bool, listed: bool, steps: seq<Step>, u: nat)
    requires var s := Ran(callbacks, listed, steps); s.stage == Fetching && !s.record.cancelled && u < |s.tables|
    ensures var s := Ran(callbacks, listed, steps);
            Next(s, Fetched(Some(u))).record.cancelled <==>
            !s.tables[u] && !Trusted(s, u) && Streak(callbacks, listed, steps) == 1
  {
    StreakIsCounted(callbacks, listed, steps);
    TidyAlways(callbacks, listed, steps);
    SecondMissCancels(Ran(callbacks, listed, steps), u);
  }

  lemma SecondMissCancels(s: State, u: nat)
    requires Tidy(s) && s.stage == Fetching && !s.record.cancelled && u < |s.tables|
    ensures Next(s, Fetched(Some(u))).record.cancelled <==> !s.tables[u] && !Trusted(s, u) && s.record.missed == 1
  {
  }

  lemma StoppedStep(s: State, step: Step)
    requires s.record.stopped && s.stage == Resting
    ensures var s2 := Next(s, step);
            && s2.record.stopped && s2.stage == Resting && s2.trace == s.trace
            && s2.record.cancelled == s.record.cancelled && s2.record.nextAttempt == s.record.nextAttempt
  {
  }

  /** A stopped record with no pass under way is left alone: never looked at, probed, subscribed or reported on. */
  lemma {:induction false} StoppedIsLeftAlone(from: State, steps: seq<Step>)
    requires from.record.stopped && from.stage == Resting
    ensures var s := Reached(Next, from, steps);
            && s.record.stopped && s.stage == Resting && s.trace == from.trace
            && s.record.cancelled == from.record.cancelled && s.record.nextAttempt == from.record.nextAttempt
    decreases |steps|
  {
    if steps != [] {
      StoppedIsLeftAlone(from, Prefix(steps));
      StoppedStep(Reached(Next, from, Prefix(steps)), Final(steps));
    }
  }

  // ---------------------------------------------------------------- how a pass goes

  /** A pass begins exactly for an unstopped record with an open channel; it goes on to a consume exactly when the queue
      was found, the record is not stopped and the tag still missing, and to an undo exactly when the consume went
      through on a stopped record; otherwise it is over. */
  lemma PassGoes(s: State, step: Step)
    requires Enabled(s, step) && !step.Fetched?
    ensures Apply(s, step).stage ==
            match step
            case Pass(closed) => if !s.record.stopped && !closed then Fetching else Resting
            case ProbeAnswers(found) =>
              if found && !s.record.stopped && !s.tables[s.stage.channel]
              then Consuming(s.stage.channel, s.tables[|s.tables| - 1]) else Resting
            case ConsumeAnswers(raised) => if !raised && s.record.stopped then Undoing(s.stage.channel) else Resting
            case UndoAnswers(_, _) => Resting
            case PassFails => Resting
            case Appears(u) => if u == |s.tables| - 1 then Noticed(s.stage) else s.stage
            case Registers(_) => Noticed(s.stage)
            case Reconnects(listed) => if listed then Noticed(s.stage) else s.stage
            case _ => s.stage
  {
  }

  /** Once it has the channel it goes on to a probe exactly when the record is marked, the tag missing there and the
      probe due; otherwise it is over. */
  lemma LookGoes(s: State, channel: Option<nat>)
    requires Enabled(s, Fetched(channel))
    ensures Check(s, channel).stage ==
            if channel.Some? && s.record.cancelled && !s.tables[channel.value] && s.now >= s.record.nextAttempt
            then Probing(channel.value) else Resting
  {
  }

  /** The world does as it likes: channels come, with the tag or without, frames arrive, tags go and appear, the record
      is stopped, and time passes. */
  lemma WorldIsFree(s: State, u: nat, flag: bool, span: real)
    ensures Enabled(s, Reconnects(flag)) && Enabled(s, Stops) && (Enabled(s, Ticks(span)) <==> span >= 0.0)
    ensures Apply(s, Reconnects(flag)).tables == s.tables + [flag] && Apply(s, Stops).record.stopped
    ensures span >= 0.0 ==> Apply(s, Ticks(span)).now == s.now + span
    ensures Enabled(s, Frame(u)) <==> u < |s.tables|
    ensures Enabled(s, Withdraws(u)) <==> u < |s.tables| && s.record.stopped
    ensures Enabled(s, Appears(u)) <==> u < |s.tables| && !s.tables[u]
    ensures Enabled(s, Registers(u)) <==> u + 1 == |s.tables| && !s.tables[u] && s.stage.Consuming?
  {
  }

  lemma TagsMove(s: State, u: nat)
    requires u < |s.tables|
    ensures !Apply(s, Frame(u)).tables[u] && !Unlist(s, u).tables[u] && Enlist(s, u).tables[u]
    ensures forall v :: 0 <= v < |s.tables| && v != u ==>
              Apply(s, Frame(u)).tables[v] == Unlist(s, u).tables[v] == Enlist(s, u).tables[v] == s.tables[v]
  {
  }

  /** A pass can begin whenever none is under way, and any answer can come. */
  lemma PassesAreFree(s: State, flag: bool)
    ensures Enabled(s, Pass(flag)) <==> s.stage == Resting
    ensures Enabled(s, PassFails) <==> s.stage != Resting
    ensures Enabled(s, ConsumeAnswers(flag)) <==> s.stage.Consuming? && (flag || s.stage.taken)
    ensures Enabled(s, ProbeAnswers(flag)) <==> s.stage.Probing? && s.stage.channel < |s.tables|
  {
  }

  ghost predicate Back(s: State) { !s.record.cancelled && s.trace != [] && Final(s.trace) == Resumed }

  /** A probe that finds the queue, and a consume that goes through, bring a record back. */
  lemma ProbeResumes(s: State) returns (more: seq<Step>)
    requires s.tables != [] && s.stage == Probing(|s.tables| - 1) && !s.record.stopped && !Final(s.tables)
    ensures Back(Reached(Next, s, more))
  {
    var u := |s.tables| - 1;
    var s1 := s.(stage := Consuming(u, false));
    assert Next(s, ProbeAnswers(true)) == s1;
    var s2 := Enlist(s1, u).(ours := Some(u));
    assert Next(s1, Registers(u)) == s2;
    assert Next(s2, ConsumeAnswers(false)) == MarkResumed(s2);
    more := [ProbeAnswers(true), Registers(u), ConsumeAnswers(false)];
    ThreeSteps(s, s1, s2, MarkResumed(s2), more);
  }

  lemma ThreeSteps(s: State, s1: State, s2: State, s3: State, steps: seq<Step>)
    requires |steps| == 3 && Next(s, steps[0]) == s1 && Next(s1, steps[1]) == s2 && Next(s2, steps[2]) == s3
    ensures Reached(Next, s, steps) == s3
  {
    ReachedSnoc(Next, s, [], steps[0]);
    ReachedSnoc(Next, s, [] + [steps[0]], steps[1]);
    ReachedSnoc(Next, s, [] + [steps[0]] + [steps[1]], steps[2]);
    assert steps == [] + [steps[0]] + [steps[1]] + [steps[2]];
  }

  /** From rest, so does a pass that finds its probe due. */
  lemma PassResumes(s: State) returns (more: seq<Step>)
    requires s.stage == Resting && s.record.cancelled && !s.record.stopped && s.tables != []
    requires s.now >= s.record.nextAttempt
    ensures Back(Reached(Next, s, more))
  {
    var look := Fetched(Some(|s.tables| - 1));
    var s2 := BeginsToLook(s, look);
    more := [Pass(false), look];
    if !Final(s.tables) {
      var rest := ProbeResumes(s2);
      ReachedConcat(Next, s, more, rest);
      more := more + rest;
    }
  }

  lemma BeginsToLook(s: State, look: Step) returns (s2: State)
    requires s.stage == Resting && s.record.cancelled && !s.record.stopped && s.tables != []
    requires s.now >= s.record.nextAttempt && look == Fetched(Some(|s.tables| - 1))
    ensures Reached(Next, s, [Pass(false), look]) == s2
    ensures if Final(s.tables) then Back(s2)
            else s2.tables == s.tables && s2.stage == Probing(|s.tables| - 1) && !s2.record.stopped
  {
    OneStep(s, Pass(false));
    s2 := LookResumes(s.(stage := Fetching), look);
    ReachedConcat(Next, s, [Pass(false)], [look]);
    assert [Pass(false)] + [look] == [Pass(false), look];
  }

  lemma OneStep(s: State, step: Step)
    ensures Reached(Next, s, [step]) == Next(s, step)
  {
    ReachedSnoc(Next, s, [], step);
    assert [] + [step] == [step];
  }

  lemma TwoSteps(s: State, s1: State, s2: State, first: Step, second: Step)
    requires Next(s, first) == s1 && Next(s1, second) == s2
    ensures Reached(Next, s, [first, second]) == s2
  {
    ReachedSnoc(Next, s, [], first);
    ReachedSnoc(Next, s, [] + [first], second);
    assert [first, second] == [] + [first] + [second];
  }

  lemma LookResumes(s: State, look: Step) returns (s2: State)
    requires s.stage == Fetching && s.record.cancelled && !s.record.stopped && s.tables != []
    requires s.now >= s.record.nextAttempt && look == Fetched(Some(|s.tables| - 1))
    ensures Reached(Next, s, [look]) == s2
    ensures if Final(s.tables) then Back(s2)
            else s2.tables == s.tables && s2.stage == Probing(|s.tables| - 1) && !s2.record.stopped
  {
    OneStep(s, look);
    s2 := Check(s, Some(|s.tables| - 1));
  }

  /** Whatever is under way can end, and time can pass until the probe is due. */
  lemma ComesToRest(s: State) returns (more: seq<Step>)
    requires s.record.cancelled && !s.record.stopped
    ensures var s2 := Reached(Next, s, more);
            && s2.stage == Resting && s2.record == s.record && s2.tables == s.tables && s2.now >= s.record.nextAttempt
  {
    var end := if s.stage == Resting then Ticks(0.0) else PassFails;
    var s1 := s.(stage := Resting);
    assert Next(s, end) == s1;
    var wait := Ticks(MaxReal(0.0, s.record.nextAttempt - s.now));
    TwoSteps(s, s1, Next(s1, wait), end, wait);
    more := [end, wait];
  }

  /** No cancellation is final: from every state of every run, a record that is marked and not stopped can come back. */
  lemma CancelledCanResume(callbacks: bool, listed: bool, steps: seq<Step>) returns (more: seq<Step>)
    requires var s := Ran(callbacks, listed, steps); s.record.cancelled && !s.record.stopped
    ensures Back(Ran(callbacks, listed, steps + more))
  {
    var s := Ran(callbacks, listed, steps);
    TablesStay(callbacks, listed, steps);
    var first := ComesToRest(s);
    var rest := PassResumes(Reached(Next, s, first));
    ReachedConcat(Next, s, first, rest);
    more := first + rest;
    ReachedConcat(Next, Start(callbacks, listed), steps, more);
  }

  lemma TablesStay(callbacks: bool, listed: bool, steps: seq<Step>)
    ensures Ran(callbacks, listed, steps).tables != []
  {
    var some := (s: State) => s.tables != [];
    forall s, step | some(s) ensures some(Next(s, step)) { TablesGrow(s, step); }
    ReachedKeeps(Next, some, Start(callbacks, listed), steps);
  }

  lemma TablesGrow(s: State, step: Step)
    ensures |s.tables| <= |Next(s, step).tables|
  {
  }

  // ---------------------------------------------------------------- a cancellation that is overlooked

  /** The record says consuming, the watched channel does not list the consumer, and only a frame would be noticed. */
  ghost predicate Overlooked(s: State) {
    && !s.record.stopped && !s.record.cancelled && s.callbacks && s.tables != []
    && s.record.watched == Some(|s.tables| - 1) && s.record.confirmed && !s.tables[|s.tables| - 1]
  }

  /** Whatever is watched exists and is heard. */
  ghost predicate Watching(s: State) {
    && (s.record.watched.Some? ==> s.record.watched.value in s.attached && s.record.watched.value < |s.tables|)
    && (s.record.confirmed ==> s.record.watched.Some?)
  }

  lemma WatchingObserved(s: State, u: nat)
    requires Watching(s) && u < |s.tables|
    ensures Watching(Observe(s, u))
  {
  }

  lemma WatchingChecked(s: State, u: nat)
    requires Watching(s) && u < |s.tables|
    ensures Watching(Check(s, Some(u)))
  {
    WatchingObserved(s, u);
    JudgeFrame(Observe(s, u), u);
  }

  /** A registration with a channel in hand watches it, and trusts the callback if the tag is there. */
  lemma AttachTrusts(s: State, channel: Option<nat>)
    requires Watching(s) && (channel.Some? ==> channel.value < |s.tables|)
    ensures var s2 := Attach(s, channel);
            && Watching(s2)
            && (s.callbacks && channel.Some? ==>
                  s2.record.watched == channel && channel.value in s2.attached
                  && (s.tables[channel.value] ==> s2.record.confirmed))
  {
  }

  lemma WatchingStays(s: State, step: Step)
    requires Watching(s)
    ensures Watching(Next(s, step))
  {
    if Enabled(s, step) {
      if step.Fetched? && step.fetched.Some? { WatchingChecked(s, step.fetched.value); }
      if step.Attaches? { AttachTrusts(s, step.fetched); }
    }
  }

  lemma WatchingAlways(callbacks: bool, listed: bool, steps: seq<Step>)
    ensures Watching(Ran(callbacks, listed, steps))
  {
    forall s, step | Watching(s) ensures Watching(Next(s, step)) { WatchingStays(s, step); }
    ReachedKeeps(Next, Watching, Start(callbacks, listed), steps);
  }

  datatype Change = Unchanged | Listed | Delisted

  /** What last happened to the tag on a channel since the pass asked for its consume; a channel that listed it then, or
      was opened with it since, counts as listing it. */
  function Lately(callbacks: bool, listed: bool, steps: seq<Step>, u: nat): Change
    decreases |steps|
  {
    if steps == [] then Unchanged
    else After(Lately(callbacks, listed, Prefix(steps), u), Ran(callbacks, listed, Prefix(steps)), Final(steps), u)
  }

  function After(was: Change, s: State, step: Step, u: nat): Change {
    if !Enabled(s, step) then was
    else match step
         case ProbeAnswers(_) => if Lists(s, u) then Listed else Unchanged
         case Reconnects(there) => if u == |s.tables| then if there then Listed else Unchanged else was
         case Frame(v) => if u == v then Delisted else was
         case Withdraws(v) => if u == v then Delisted else was
         case Appears(v) => if u == v then Listed else was
         case Registers(v) => if u == v then Listed else was
         case _ => was
  }

  predicate Lists(s: State, u: nat) { u < |s.tables| && s.tables[u] }

  /** Whether a channel lists the tag after a step. */
  predicate ListsAfter(s: State, step: Step, u: nat) {
    match step
    case Reconnects(there) => if u == |s.tables| then there else Lists(s, u)
    case Frame(v) => u != v && Lists(s, u)
    case Withdraws(v) => u != v && Lists(s, u)
    case Appears(v) => u == v || Lists(s, u)
    case Registers(v) => u == v || Lists(s, u)
    case UndoAnswers(v, ok) => !(ok && u == v) && Lists(s, u)
    case _ => Lists(s, u)
  }

  lemma ListedStep(s: State, step: Step, u: nat)
    requires Enabled(s, step)
    ensures Lists(Next(s, step), u) == ListsAfter(s, step, u)
  {
    if step.Fetched? { CheckFrame(s, step.fetched); }
  }

  /** A pass comes to wait for its consume only after its probe. */
  lemma ConsumingStep(s: State, step: Step)
    requires Enabled(s, step) && Next(s, step).stage.Consuming?
    ensures step.ProbeAnswers? || (s.stage.Consuming? && !step.UndoAnswers?)
  {
    if step.Fetched? { CheckFrame(s, step.fetched); }
  }

  /** The consume can return, and the record trusts its callback on the current channel. */
  predicate Answerable(s: State) {
    s.stage.Consuming? && s.stage.taken && s.tables != [] && s.record.confirmed
    && s.record.watched == Some(|s.tables| - 1)
  }

  /** It comes to that only while the channel lists the tag. */
  lemma AnswerableStep(s: State, step: Step)
    requires Watching(s) && Answerable(Next(s, step)) && !Answerable(s)
    ensures Final(Next(s, step).tables)
  {
    if step.Fetched? && Enabled(s, step) { CheckFrame(s, step.fetched); }
  }

  /** ... and not by a new channel. */
  lemma AnswerableStays(s: State, step: Step)
    requires Watching(s) && Answerable(Next(s, step)) && Answerable(s)
    ensures |Next(s, step).tables| == |s.tables| && (Enabled(s, step) ==> !step.ProbeAnswers? && !step.Reconnects?)
  {
  }

  /** While a pass waits for its consume, a channel lists the tag exactly when the last change there was a listing; and
      when the consume can return, something has happened to the tag on the current channel since the pass asked. */
  ghost predicate Known(s: State, late: Change, u: nat) {
    && (s.stage.Consuming? && u < |s.tables| ==> (Lists(s, u) <==> late == Listed))
    && (Answerable(s) && u + 1 == |s.tables| ==> late != Unchanged)
  }

  lemma KnownListed(s: State, step: Step, was: Change, u: nat)
    requires Known(s, was, u) && Enabled(s, step) && Next(s, step).stage.Consuming? && u < |Next(s, step).tables|
    ensures Lists(Next(s, step), u) <==> After(was, s, step, u) == Listed
  {
    ListedStep(s, step, u);
    ConsumingStep(s, step);
  }

  lemma KnownStep(s: State, step: Step, was: Change, u: nat)
    requires Watching(s) && Known(s, was, u)
    ensures Known(Next(s, step), After(was, s, step, u), u)
  {
    if Enabled(s, step) {
      var s2 := Next(s, step);
      if s2.stage.Consuming? && u < |s2.tables| { KnownListed(s, step, was, u); }
      if Answerable(s2) && u + 1 == |s2.tables| {
        if Answerable(s) { AnswerableStays(s, step); } else { AnswerableStep(s, step); }
      }
    }
  }

  lemma {:induction false} LatelyIsKnown(callbacks: bool, listed: bool, steps: seq<Step>, u: nat)
    ensures Known(Ran(callbacks, listed, steps), Lately(callbacks, listed, steps, u), u)
    decreases |steps|
  {
    if steps != [] {
      LatelyIsKnown(callbacks, listed, Prefix(steps), u);
      WatchingAlways(callbacks, listed, Prefix(steps));
      KnownStep(Ran(callbacks, listed, Prefix(steps)), Final(steps), Lately(callbacks, listed, Prefix(steps), u), u);
    }
  }

  /** The registration has attached its callback since the pass looked at its channel. */
  predicate Overtaken(callbacks: bool, listed: bool, steps: seq<Step>)
    decreases |steps|
  {
    steps != [] &&
    (if !Enabled(Ran(callbacks, listed, Prefix(steps)), Final(steps)) then Overtaken(callbacks, listed, Prefix(steps))
     else match Final(steps)
          case Attaches(Some(_)) => true
          case Fetched(Some(_)) => false
          case _ => Overtaken(callbacks, listed, Prefix(steps)))
  }

  /** The pass watches the channel it has looked at. */
  predicate OnWatch(s: State) {
    s.callbacks && (s.stage.Probing? || s.stage.Consuming? || s.stage.Undoing?) ==>
      s.record.watched == Some(s.stage.channel)
  }

  lemma OnWatchStep(s: State, step: Step)
    requires Enabled(s, step)
    ensures step.Fetched? && step.fetched.Some? ==> OnWatch(Next(s, step))
    ensures OnWatch(s) && !(step.Attaches? && step.fetched.Some?) ==> OnWatch(Next(s, step))
  {
    if step.Fetched? { OnWatchChecked(s, step.fetched); } else { OnWatchOtherwise(s, step); }
  }

  lemma OnWatchChecked(s: State, channel: Option<nat>)
    requires channel.Some? ==> channel.value < |s.tables|
    ensures OnWatch(Check(s, channel))
  {
    if channel.Some? {
      var s1 := Observe(s, channel.value);
      JudgeFrame(s1, channel.value);
      assert s1.callbacks ==> s1.record.watched == channel;
      assert Judge(s1, channel.value).stage == Resting || Judge(s1, channel.value).stage == Probing(channel.value);
      assert Judge(s1, channel.value).record.watched == s1.record.watched;
    }
  }

  lemma OnWatchOtherwise(s: State, step: Step)
    requires Enabled(s, step) && !step.Fetched?
    ensures OnWatch(s) && !(step.Attaches? && step.fetched.Some?) ==> OnWatch(Next(s, step))
  {
  }

  /** Only a registration that comes late takes the watch elsewhere. */
  lemma {:induction false} WatchIsKept(callbacks: bool, listed: bool, steps: seq<Step>)
    ensures OnWatch(Ran(callbacks, listed, steps)) || Overtaken(callbacks, listed, steps)
    decreases |steps|
  {
    if steps != [] {
      var p := Ran(callbacks, listed, Prefix(steps));
      WatchIsKept(callbacks, listed, Prefix(steps));
      if Enabled(p, Final(steps)) { OnWatchStep(p, Final(steps)); }
    }
  }

  /** Exactly two things make a cancellation overlooked, over every run, both while the record trusts its callback on
      the current channel. A pass's consume returns, and the last that happened to the tag there since the pass asked
      for it is that it was taken off again, by a frame that went unheard because the record was still marked. Or a
      pass finds the tag after its probe on an older channel, the registration having moved the watch in the
      meantime. */
  lemma OverlookedIff(callbacks: bool, listed: bool, steps: seq<Step>, step: Step)
    requires var s := Ran(callbacks, listed, steps); Enabled(s, step) && !Overlooked(s)
    ensures var s := Ran(callbacks, listed, steps);
            Overlooked(Next(s, step)) <==>
            && callbacks && !s.record.stopped && s.record.confirmed && s.record.watched == Some(|s.tables| - 1)
            && match step
               case ConsumeAnswers(raised) => !raised && Lately(callbacks, listed, steps, |s.tables| - 1) == Delisted
               case ProbeAnswers(found) =>
                 && found && Overtaken(callbacks, listed, steps) && s.stage.channel + 1 < |s.tables|
                 && s.tables[s.stage.channel] && !Final(s.tables)
               case _ => false
  {
    match step
    case ConsumeAnswers(raised) =>
      if raised {
        NothingElseOverlooksRun(callbacks, listed, steps, step);
      } else {
        ReturnOverlooks(callbacks, listed, steps);
      }
    case ProbeAnswers(found) => FindingOverlooks(callbacks, listed, steps, found);
    case _ => NothingElseOverlooksRun(callbacks, listed, steps, step);
  }

  lemma NothingElseOverlooksRun(callbacks: bool, listed: bool, steps: seq<Step>, step: Step)
    requires !Overlooked(Ran(callbacks, listed, steps)) && step != ConsumeAnswers(false) && !step.ProbeAnswers?
    ensures !Overlooked(Next(Ran(callbacks, listed, steps), step))
  {
    RunKeeps(callbacks, listed, steps);
    WatchingAlways(callbacks, listed, steps);
    NothingElseOverlooks(Ran(callbacks, listed, steps), step);
  }

  lemma ReturnOverlooks(callbacks: bool, listed: bool, steps: seq<Step>)
    requires Enabled(Ran(callbacks, listed, steps), ConsumeAnswers(false))
    ensures var s := Ran(callbacks, listed, steps);
            && s.tables != []
            && (Overlooked(Next(s, ConsumeAnswers(false))) <==>
                && callbacks && !s.record.stopped && s.record.confirmed && s.record.watched == Some(|s.tables| - 1)
                && Lately(callbacks, listed, steps, |s.tables| - 1) == Delisted)
  {
    var s := Ran(callbacks, listed, steps);
    RunKeeps(callbacks, listed, steps);
    ModeStays(callbacks, listed, steps);
    AnswerOverlooks(s);
    LatelyIsKnown(callbacks, listed, steps, |s.tables| - 1);
  }

  lemma FindingOverlooks(callbacks: bool, listed: bool, steps: seq<Step>, found: bool)
    requires var s := Ran(callbacks, listed, steps); Enabled(s, ProbeAnswers(found)) && !Overlooked(s)
    ensures var s := Ran(callbacks, listed, steps);
            && s.tables != []
            && (Overlooked(Next(s, ProbeAnswers(found))) <==>
                && callbacks && !s.record.stopped && s.record.confirmed && s.record.watched == Some(|s.tables| - 1)
                && found && Overtaken(callbacks, listed, steps) && s.stage.channel + 1 < |s.tables|
                && s.tables[s.stage.channel] && !Final(s.tables))
  {
    RunKeeps(callbacks, listed, steps);
    ModeStays(callbacks, listed, steps);
    WatchIsKept(callbacks, listed, steps);
    ProbeOverlooks(Ran(callbacks, listed, steps), found);
  }

  lemma ProbeOverlooks(s: State, found: bool)
    requires Inv(s) && !Overlooked(s) && Enabled(s, ProbeAnswers(found))
    ensures s.tables != []
    ensures Overlooked(Next(s, ProbeAnswers(found))) <==>
            && s.callbacks && !s.record.stopped && s.record.confirmed && s.record.watched == Some(|s.tables| - 1)
            && found && s.tables[s.stage.channel] && !Final(s.tables)
  {
  }

  lemma AnswerOverlooks(s: State)
    requires Inv(s) && Enabled(s, ConsumeAnswers(false))
    ensures s.tables != []
    ensures Overlooked(Next(s, ConsumeAnswers(false))) <==>
            s.callbacks && !s.record.stopped && s.record.confirmed && s.record.watched == Some(|s.tables| - 1)
            && !Final(s.tables)
  {
  }

  lemma NothingElseOverlooks(s: State, step: Step)
    requires Inv(s) && Watching(s) && !Overlooked(s) && step != ConsumeAnswers(false) && !step.ProbeAnswers?
    ensures !Overlooked(Next(s, step))
  {
    if Enabled(s, step) {
      match step
      case Fetched(channel) =>
        PassDoesNotOverlook(s, channel);
        assert Next(s, step) == Check(s, channel);
      case Attaches(channel) =>
        AttachingDoesNotOverlook(s, channel);
        assert Next(s, step) == Attach(s, channel);
      case _ => OtherStepsDoNotOverlook(s, step);
    }
  }

  lemma AttachingDoesNotOverlook(s: State, channel: Option<nat>)
    requires Watching(s) && !Overlooked(s) && (channel.Some? ==> channel.value < |s.tables|)
    ensures !Overlooked(Attach(s, channel))
  {
  }

  lemma OtherStepsDoNotOverlook(s: State, step: Step)
    requires Inv(s) && Watching(s) && !Overlooked(s) && Enabled(s, step)
    requires step != ConsumeAnswers(false) && !step.ProbeAnswers? && !step.Fetched? && !step.Attaches?
    ensures !Overlooked(Next(s, step))
  {
  }

  /** Looking at a channel watches it, and confirms the watch only if the tag is there. */
  lemma ObserveWatches(s: State, u: nat)
    requires u < |s.tables|
    ensures var s1 := Observe(s, u);
            && s1 == s.(attached := s1.attached,
                        record := s.record.(watched := s1.record.watched, confirmed := s1.record.confirmed))
            && (s.callbacks ==> s1.record.watched == Some(u))
            && (s.callbacks && !s.tables[u] && s1.record.confirmed ==>
                s.record.watched == Some(u) && s.record.confirmed)
  {
  }

  lemma MarkedStaysMarked(s: State, u: nat)
    requires u < |s.tables| && s.record.cancelled && !s.tables[u]
    ensures Judge(s, u).record.cancelled
  {
  }

  lemma PassDoesNotOverlook(s: State, channel: Option<nat>)
    requires Watching(s) && !Overlooked(s) && (channel.Some? ==> channel.value < |s.tables|)
    ensures !Overlooked(Check(s, channel))
  {
    if channel.Some? {
      var u := channel.value;
      ObserveWatches(s, u);
      JudgeFrame(Observe(s, u), u);
      if s.record.cancelled && !s.tables[u] { MarkedStaysMarked(Observe(s, u), u); }
    }
  }

  lemma ModeStep(s: State, step: Step)
    ensures Next(s, step).callbacks == s.callbacks
  {
  }

  lemma {:induction false} ModeStays(callbacks: bool, listed: bool, steps: seq<Step>)
    ensures Ran(callbacks, listed, steps).callbacks == callbacks
    decreases |steps|
  {
    if steps != [] {
      ModeStays(callbacks, listed, Prefix(steps));
      ModeStep(Ran(callbacks, listed, Prefix(steps)), Final(steps));
    }
  }

  /** While a consume is under way, a cancel frame for a record that is still marked changes only the channel. */
  lemma FrameIsSwallowed(callbacks: bool, listed: bool, steps: seq<Step>, u: nat)
    requires var s := Ran(callbacks, listed, steps); s.stage.Consuming? && u < |s.tables|
    ensures var s := Ran(callbacks, listed, steps); Next(s, Frame(u)) == Unlist(s, u)
  {
    RunKeeps(callbacks, listed, steps);
  }

  /** Steps of the supervisor itself, on the current channel, and of the clock. */
  predicate Quiet(s: State, step: Step) {
    match step
    case Ticks(_) => true
    case Pass(_) => true
    case Fetched(channel) => channel == None || channel == Some(|s.tables| - 1)
    case Attaches(channel) => channel == None || channel == Some(|s.tables| - 1)
    case PassFails => true
    case _ => false
  }

  function QuietNext(s: State, step: Step): State { if Quiet(s, step) then Next(s, step) else s }

  ghost predicate Unnoticed(s: State) { Overlooked(s) && (s.stage == Resting || s.stage == Fetching) }

  lemma QuietStep(s: State, step: Step)
    requires Unnoticed(s)
    ensures Unnoticed(QuietNext(s, step)) && QuietNext(s, step).trace == s.trace
  {
  }

  /** No number of supervision passes notices: an overlooked cancellation waits for the next frame, for somebody else
      to subscribe, or for a new channel. */
  lemma {:induction false} PassesDoNotNotice(from: State, steps: seq<Step>)
    requires Unnoticed(from)
    ensures Unnoticed(Reached(QuietNext, from, steps)) && Reached(QuietNext, from, steps).trace == from.trace
    decreases |steps|
  {
    if steps != [] {
      PassesDoNotNotice(from, Prefix(steps));
      QuietStep(Reached(QuietNext, from, Prefix(steps)), Final(steps));
    }
  }

  /** One channel, watched and confirmed since the registration. */
  function Watched(now: real, listed: bool, cancelled: bool, retryDelay: real, nextAttempt: real, stage: Stage,
                   trace: seq<Event>): State {
    State(true, now, [listed], None, {0}, false, Record(false, cancelled, Some(0), true, 0, retryDelay, nextAttempt),
          stage, trace)
  }

  lemma Extend(steps: seq<Step>, step: Step, s: State) returns (longer: seq<Step>)
    requires Next(Ran(true, true, steps), step) == s
    ensures longer == steps + [step] && Ran(true, true, longer) == s
  {
    longer := steps + [step];
    ReachedSnoc(Next, Start(true, true), steps, step);
  }

  const PROBED := [Cancelled(0.0), Probe(1.0, 1.0)]

  /** The consumer is registered, then cancelled. */
  lemma CancelledOnce() returns (steps: seq<Step>)
    ensures Ran(true, true, steps) == Watched(1.0, false, true, 1.0, 1.0, Resting, [Cancelled(0.0)])
  {
    assert Ran(true, true, []) == Start(true, true);
    steps := Extend([], Attaches(Some(0)), Watched(0.0, true, false, 1.0, 0.0, Resting, []));
    steps := Extend(steps, Frame(0), Watched(0.0, false, true, 1.0, 1.0, Resting, [Cancelled(0.0)]));
    steps := Extend(steps, Ticks(1.0), Watched(1.0, false, true, 1.0, 1.0, Resting, [Cancelled(0.0)]));
  }

  /** A second later its queue is probed, and the pass asks for a consume. */
  lemma ConsumeUnderWay() returns (steps: seq<Step>)
    ensures Ran(true, true, steps) == Watched(1.0, false, true, 2.0, 2.0, Consuming(0, false), PROBED)
  {
    steps := CancelledOnce();
    steps := Extend(steps, Pass(false), Watched(1.0, false, true, 1.0, 1.0, Fetching, [Cancelled(0.0)]));
    steps := Extend(steps, Fetched(Some(0)), Watched(1.0, false, true, 2.0, 2.0, Probing(0), PROBED));
    steps := Extend(steps, ProbeAnswers(true), Watched(1.0, false, true, 2.0, 2.0, Consuming(0, false), PROBED));
  }

  /** ... and this happens: the new consumer is listed, cancelled again, and only then does the consume answer. */
  lemma CancelDuringConsumeIsOverlooked()
    ensures exists steps :: Unnoticed(Ran(true, true, steps))
  {
    var steps := ConsumeUnderWay();
    var s := Watched(1.0, false, true, 2.0, 2.0, Consuming(0, false), PROBED);
    steps := Extend(steps, Registers(0), s.(tables := [true], ours := Some(0), stage := Consuming(0, true)));
    steps := Extend(steps, Frame(0), s.(stage := Consuming(0, true)));
    steps := Extend(steps, ConsumeAnswers(false), Watched(1.0, false, false, 1.0, 2.0, Resting, PROBED + [Resumed]));
  }

  lemma Overtakes(steps: seq<Step>, u: nat)
    requires Enabled(Ran(true, true, steps), Attaches(Some(u)))
    ensures Overtaken(true, true, steps + [Attaches(Some(u))])
  {
    Snoc(steps, Attaches(Some(u)));
  }

  lemma StaysOvertaken(steps: seq<Step>, step: Step)
    requires Overtaken(true, true, steps) && !step.Fetched?
    ensures Overtaken(true, true, steps + [step])
  {
    Snoc(steps, step);
  }

  /** ... and so does the other: the consumer is cancelled on its first channel; while the pass probes, somebody else
      subscribes it there, the connection is replaced, the registration attaches to the new channel, and a frame takes
      the tag off that one. */
  lemma LateRegistrationIsOverlooked()
    ensures exists steps :: Overtaken(true, true, steps) && Unnoticed(Ran(true, true, steps))
  {
    var r0 := Start(true, true);
    var r1 := r0.(attached := {0}, record := Record(false, false, Some(0), true, 0, 1.0, 0.0));
    var r2 := r1.(tables := [false], record := Record(false, true, Some(0), true, 0, 1.0, 1.0),
                  trace := [Cancelled(0.0)]);
    var r3 := r2.(now := 1.0, record := Record(false, true, Some(0), true, 0, 2.0, 2.0), stage := Probing(0),
                  trace := PROBED);
    var r4 := r3.(tables := [true, true], attached := {0, 1}, registering := false,
                  record := Record(false, true, Some(1), true, 0, 2.0, 2.0));
    assert Ran(true, true, []) == r0;
    var steps := Extend([], Pass(false), r0.(stage := Fetching));
    steps := Extend(steps, Fetched(Some(0)), r1);
    steps := Extend(steps, Frame(0), r2);
    steps := Extend(steps, Ticks(1.0), r2.(now := 1.0));
    steps := Extend(steps, Pass(false), r2.(now := 1.0, stage := Fetching));
    steps := Extend(steps, Fetched(Some(0)), r3);
    steps := Extend(steps, Appears(0), r3.(tables := [true]));
    steps := Extend(steps, Reconnects(true), r3.(tables := [true, true]));
    Overtakes(steps, 1);
    steps := Extend(steps, Attaches(Some(1)), r4);
    StaysOvertaken(steps, Frame(1));
    steps := Extend(steps, Frame(1), r4.(tables := [true, false]));
    StaysOvertaken(steps, ProbeAnswers(true));
    steps := Extend(steps, ProbeAnswers(true), MarkResumed(r4.(tables := [true, false])));
    assert Unnoticed(Ran(true, true, steps));
  }

  // ---------------------------------------------------------------- a consume that outlives the stop

  predicate InHand(stage: Stage) { stage.Consuming? || stage.Undoing? }

  /** The record is stopped, no pass has its consume in hand any more, and it is still listed. */
  ghost predicate Lingers(s: State) { s.record.stopped && !InHand(s.stage) && s.ours.Some? }

  /** Where the last consume of a pass that took effect still stands: not cancelled by the server, the transport or an
      undo since, and not reported as resumed. */
  function Standing(callbacks: bool, listed: bool, steps: seq<Step>): Option<nat>
    decreases |steps|
  {
    if steps == [] then None
    else
      var p, was := Ran(callbacks, listed, Prefix(steps)), Standing(callbacks, listed, Prefix(steps));
      if !Enabled(p, Final(steps)) then was
      else if p.record.cancelled && !Ran(callbacks, listed, steps).record.cancelled then None
      else match Final(steps)
           case Registers(u) => Some(u)
           case Frame(u) => if was == Some(u) then None else was
           case Withdraws(u) => if was == Some(u) then None else was
           case UndoAnswers(u, ok) => if ok && was == Some(u) then None else was
           case _ => was
  }

  lemma OursStep(s: State, step: Step)
    requires Inv(s) && Enabled(s, step) && !step.Fetched?
    ensures Next(s, step).ours ==
            if s.record.cancelled && !Next(s, step).record.cancelled then None
            else match step
                 case Registers(u) => Some(u)
                 case Frame(u) => if s.ours == Some(u) then None else s.ours
                 case Withdraws(u) => if s.ours == Some(u) then None else s.ours
                 case UndoAnswers(u, ok) => if ok && s.ours == Some(u) then None else s.ours
                 case _ => s.ours
  {
  }

  lemma {:induction false} StandingIsOurs(callbacks: bool, listed: bool, steps: seq<Step>)
    ensures Ran(callbacks, listed, steps).ours == Standing(callbacks, listed, steps)
    decreases |steps|
  {
    if steps != [] {
      var p := Ran(callbacks, listed, Prefix(steps));
      StandingIsOurs(callbacks, listed, Prefix(steps));
      RunKeeps(callbacks, listed, Prefix(steps));
      if Enabled(p, Final(steps)) {
        if Final(steps).Fetched? { CheckFrame(p, Final(steps).fetched); } else { OursStep(p, Final(steps)); }
      }
    }
  }

  /** Exactly when a pass's own consume outlives the stop, over every run: it stands, and then the pass is cut off or
      its consume raises after the stop, or the undo fails or goes to another channel than the consume; or an earlier
      pass had lost sight of it before the stop. */
  lemma LingersIff(callbacks: bool, listed: bool, steps: seq<Step>, step: Step)
    requires var s := Ran(callbacks, listed, steps); Enabled(s, step) && !Lingers(s)
    ensures var s, stands := Ran(callbacks, listed, steps), Standing(callbacks, listed, steps);
            Lingers(Next(s, step)) <==>
            stands.Some? && match step
                            case Stops => !InHand(s.stage)
                            case PassFails => s.record.stopped
                            case ConsumeAnswers(raised) => s.record.stopped && raised
                            case UndoAnswers(u, ok) => !ok || stands.value != u
                            case _ => false
  {
    RunKeeps(callbacks, listed, steps);
    StandingIsOurs(callbacks, listed, steps);
    if step.Fetched? {
      CheckFrame(Ran(callbacks, listed, steps), step.fetched);
    } else {
      LingeringStep(Ran(callbacks, listed, steps), step);
    }
  }

  lemma LingeringStep(s: State, step: Step)
    requires Inv(s) && Enabled(s, step) && !Lingers(s) && !step.Fetched?
    ensures Lingers(Next(s, step)) <==>
            s.ours.Some? && match step
                            case Stops => !InHand(s.stage)
                            case PassFails => s.record.stopped
                            case ConsumeAnswers(raised) => s.record.stopped && raised
                            case UndoAnswers(u, ok) => !ok || s.ours.value != u
                            case _ => false
  {
  }

  /** So a pass that is not cut off takes its consume back: an undo that succeeds on the channel of the consume leaves
      that channel without the tag. */
  lemma StoppedConsumeIsUndone(callbacks: bool, listed: bool, steps: seq<Step>, u: nat)
    requires var s := Ran(callbacks, listed, steps); s.stage == Undoing(u) && (s.ours == None || s.ours == Some(u))
    ensures var s := Ran(callbacks, listed, steps);
            && s.record.stopped && Enabled(s, UndoAnswers(u, true))
            && !Next(s, UndoAnswers(u, true)).tables[u] && Next(s, UndoAnswers(u, true)).ours == None
  {
    RunKeeps(callbacks, listed, steps);
  }

  /** Neither the server nor the transport takes the tag off the channel. */
  function Neglect(u: nat): (State, Step) -> State {
    (s, step) => if step == Frame(u) || step == Withdraws(u) then s else Next(s, step)
  }

  ghost predicate Forgotten(s: State, u: nat) { s.record.stopped && !InHand(s.stage) && u < |s.tables| && s.tables[u] }

  lemma ForgottenStep(s: State, step: Step, u: nat)
    requires Forgotten(s, u)
    ensures Forgotten(Neglect(u)(s, step), u)
  {
    if step.Fetched? && Enabled(s, step) { CheckFrame(s, step.fetched); }
  }

  /** A consume that lingers is never taken back by the supervisor. */
  lemma {:induction false} LingersForGood(from: State, u: nat, steps: seq<Step>)
    requires Forgotten(from, u)
    ensures Forgotten(Reached(Neglect(u), from, steps), u)
    decreases |steps|
  {
    if steps != [] {
      LingersForGood(from, u, Prefix(steps));
      ForgottenStep(Reached(Neglect(u), from, Prefix(steps)), Final(steps), u);
    }
  }

  /** ... and this happens: the record is stopped, the consume takes effect, and the pass is cut off. */
  lemma CutOffConsumeLingers()
    ensures exists steps :: Lingers(Ran(true, true, steps)) && Forgotten(Ran(true, true, steps), 0)
  {
    var steps := ConsumeUnderWay();
    var s := Watched(1.0, false, true, 2.0, 2.0, Consuming(0, false), PROBED);
    var stopped := s.(record := s.record.(stopped := true));
    steps := Extend(steps, Stops, stopped);
    steps := Extend(steps, Registers(0), stopped.(tables := [true], ours := Some(0), stage := Consuming(0, true)));
    steps := Extend(steps, PassFails, stopped.(tables := [true], ours := Some(0), stage := Resting));
  }

  // ---------------------------------------------------------------- the object

  class ConsumerRecord {
    const callbacks: bool
    var attached: set<nat>
    var registering: bool
    var stopped: bool
    var brokerCancelled: bool
    var watchedUnderlay: Option<nat>
    var watchConfirmed: bool
    var missedPolls: nat
    var retryDelay: real
    var nextAttempt: real
    var stage: Stage
    var trace: seq<Event>
    ghost var ours: Option<nat>

    ghost function Now(now: real, tables: seq<bool>): State
      reads this
    {
      State(callbacks, now, tables, ours, attached, registering,
            Record(stopped, brokerCancelled, watchedUnderlay, watchConfirmed, missedPolls, retryDelay, nextAttempt),
            stage, trace)
    }

    constructor (callbacks: bool)
      ensures forall listed :: Now(0.0, [listed]) == Start(callbacks, listed)
    {
      this.callbacks, attached, registering, stopped, brokerCancelled := callbacks, {}, true, false, false;
      watchedUnderlay, watchConfirmed, missedPolls, retryDelay, nextAttempt := None, false, 0, BACKOFF_INITIAL, 0.0;
      stage, trace, ours := Resting, [], None;
    }

    /** The callback is attached to a channel once, unless the channels have none. */
    method WatchChannel(now: real, tables: seq<bool>, u: nat)
      modifies this`attached, this`watchedUnderlay, this`watchConfirmed
      ensures Now(now, tables) == Watch(old(Now(now, tables)), u)
      ensures callbacks ==> watchedUnderlay == Some(u)
    {
      if callbacks && watchedUnderlay != Some(u) {
        attached, watchedUnderlay, watchConfirmed := attached + {u}, Some(u), false;
      }
    }

    /** `register` once it has the channel: the callback is attached at once, and a listed tag makes it trusted. */
    method Register(now: real, tables: seq<bool>, channel: Option<nat>)
      requires Inv(Now(now, tables)) && Watching(Now(now, tables)) && (channel.Some? ==> channel.value < |tables|)
      modifies this`attached, this`registering, this`watchedUnderlay, this`watchConfirmed
      ensures Now(now, tables) == Attach(old(Now(now, tables)), channel)
      ensures Inv(Now(now, tables)) && Watching(Now(now, tables))
      ensures callbacks && channel.Some? ==>
                watchedUnderlay == channel && channel.value in attached && (tables[channel.value] ==> watchConfirmed)
    {
      ghost var was := Now(now, tables);
      registering := false;
      if channel.Some? {
        WatchChannel(now, tables, channel.value);
        if tables[channel.value] { watchConfirmed := watchedUnderlay == channel; }
      }
      assert Now(now, tables) == Attach(was, channel);
      AttachKeeps(was, channel);
      AttachTrusts(was, channel);
    }

    /** Reported once, and the first probe is due a second later. */
    method Cancel(now: real, tables: seq<bool>)
      requires Inv(Now(now, tables)) && !brokerCancelled
      modifies this`brokerCancelled, this`missedPolls, this`retryDelay, this`nextAttempt, this`trace
      ensures Now(now, tables) == MarkCancelled(old(Now(now, tables))) && Inv(Now(now, tables))
      ensures |Reports(Says, trace)| == |Reports(Says, old(trace))| + 1 && Between(trace) && Due(trace) == now + 1.0
    {
      MarkCancelledKeeps(Now(now, tables));
      Snoc(trace, Cancelled(now));
      brokerCancelled, missedPolls, retryDelay, nextAttempt := true, 0, BACKOFF_INITIAL, now + BACKOFF_INITIAL;
      trace := trace + [Cancelled(now)];
    }

    /** Reported once, and the report closes the one before it. */
    method Resume(now: real, tables: seq<bool>)
      requires Inv(Now(now, tables)) && brokerCancelled
      modifies this`brokerCancelled, this`missedPolls, this`retryDelay, this`stage, this`trace, this`ours
      ensures Now(now, tables) == MarkResumed(old(Now(now, tables))) && Inv(Now(now, tables))
      ensures |Reports(Says, trace)| == |Reports(Says, old(trace))| + 1 && !Between(trace)
    {
      MarkResumedKeeps(Now(now, tables));
      Snoc(trace, Resumed);
      brokerCancelled, missedPolls, retryDelay, ours := false, 0, BACKOFF_INITIAL, None;
      stage, trace := Resting, trace + [Resumed];
    }

    /** A frame is reported exactly when the record is neither stopped nor already marked. */
    method CancelFrame(now: real, tables: seq<bool>)
      requires Inv(Now(now, tables))
      modifies this`brokerCancelled, this`missedPolls, this`retryDelay, this`nextAttempt, this`trace
      ensures Now(now, tables) == OnCancelFrame(old(Now(now, tables))) && Inv(Now(now, tables))
      ensures |Reports(Says, trace)| == |Reports(Says, old(trace))| + if !stopped && !Between(old(trace)) then 1 else 0
    {
      if !stopped && !brokerCancelled { Cancel(now, tables); }
    }

    /** A probe exactly when one is due, with the wait the trace prescribes. */
    method Resubscribe(now: real, tables: seq<bool>, u: nat)
      requires Inv(Now(now, tables)) && brokerCancelled && u < |tables|
      modifies this`retryDelay, this`nextAttempt, this`stage, this`trace
      ensures Now(now, tables) == TryResubscribe(old(Now(now, tables)), u) && Inv(Now(now, tables))
      ensures trace == if now < Due(old(trace)) then old(trace)
              else old(trace) + [Probe(now, Backoff(Probes(old(trace))))]
    {
      ghost var was := Now(now, tables);
      if now < nextAttempt {
        stage := Resting;
      } else {
        trace := trace + [Probe(now, retryDelay)];
        nextAttempt := now + retryDelay;
        retryDelay := if retryDelay * 2.0 < BACKOFF_MAX then retryDelay * 2.0 else BACKOFF_MAX;
        stage := Probing(u);
      }
      assert Now(now, tables) == TryResubscribe(was, u);
      TryResubscribeKeeps(was, u);
    }

    /** `_check` once it has the channel. */
    method Supervise(now: real, tables: seq<bool>, channel: Option<nat>)
      requires Inv(Now(now, tables)) && (channel.Some? ==> channel.value < |tables|)
      modifies this
      ensures Now(now, tables) == Check(old(Now(now, tables)), channel) && Inv(Now(now, tables))
    {
      if channel == None {
        stage := Resting;
        return;
      }
      var u := channel.value;
      ObserveKeeps(Now(now, tables), u);
      WatchChannel(now, tables, u);
      if tables[u] && watchedUnderlay == Some(u) { watchConfirmed := true; }
      assert Now(now, tables) == Observe(old(Now(now, tables)), u);
      Verdict(now, tables, u);
    }

    /** What the pass concludes; one report at most when the tag is missing, and none when a marked record still
        waits. */
    method Verdict(now: real, tables: seq<bool>, u: nat)
      requires Inv(Now(now, tables)) && u < |tables|
      modifies this`brokerCancelled, this`missedPolls, this`retryDelay, this`nextAttempt, this`stage, this`trace,
               this`ours
      ensures Now(now, tables) == Judge(old(Now(now, tables)), u) && Inv(Now(now, tables))
      ensures tables[u] ==> !Between(trace)
    {
      JudgeKeeps(Now(now, tables), u);
      if !brokerCancelled {
        if tables[u] || watchConfirmed {
          stage, missedPolls := Resting, 0;
          return;
        }
        if missedPolls + 1 < MISSES_TO_CANCEL {
          stage, missedPolls := Resting, missedPolls + 1;
          return;
        }
        Cancel(now, tables);
      }
      if tables[u] { Resume(now, tables); } else { Resubscribe(now, tables, u); }
    }

    /** A stopped record is never resumed, nor is one whose queue is missing. */
    method AfterProbe(now: real, tables: seq<bool>, found: bool)
      requires Inv(Now(now, tables)) && stage.Probing?
      modifies this`brokerCancelled, this`missedPolls, this`retryDelay, this`stage, this`trace, this`ours
      ensures Now(now, tables) == Probed(old(Now(now, tables)), found) && Inv(Now(now, tables))
      ensures !Between(trace) <==> found && !stopped && tables[old(stage).channel]
      ensures stage.Consuming? <==> found && !stopped && !tables[old(stage).channel]
    {
      if !found || stopped {
        stage := Resting;
      } else if tables[stage.channel] {
        Resume(now, tables);
      } else {
        stage := Consuming(stage.channel, tables[|tables| - 1]);
      }
    }

    /** A completed consume is reported unless the record is stopped; then it is undone and stays unreported. */
    method AfterConsume(now: real, tables: seq<bool>, raised: bool)
      requires Inv(Now(now, tables)) && stage.Consuming?
      modifies this`brokerCancelled, this`missedPolls, this`retryDelay, this`stage, this`trace, this`ours
      ensures Now(now, tables) == Consumed(old(Now(now, tables)), raised) && Inv(Now(now, tables))
      ensures Between(trace) <==> raised || stopped
      ensures stage.Undoing? <==> stopped && !raised
    {
      if raised {
        stage := Resting;
      } else if stopped {
        stage := Undoing(stage.channel);
      } else {
        Resume(now, tables);
      }
    }
  }
}
