/** The inspector: peek and replay as the loops they are, on any exit.

    The environment answers are parameters: whether a fetch fails, what the predicate says, how each republish turns
    out and whether a copy of it comes back to this queue, when the copies on their way arrive, and whether a settlement
    fails.
 */
module DlqInspector {
  import opened Common
  import opened DlqHeaders
  import opened Dlq

  datatype Verdict = Match | NoMatch | Throws

  datatype Answer = Accepted | Declined | Threw

  datatype Env = Env(
    getFails: nat -> bool,
    filter: Option<Msg -> Verdict>,
    publish: (nat, Envelope) -> Answer,
    comesBack: (nat, Envelope) -> Option<Msg>,
    arrivals: nat -> seq<nat>,
    ackFails: nat -> bool,
    nackFails: Msg -> bool,
    now: nat -> string)

  datatype Error = UnsafeToBrowse | GetFailed | PredicateRaised | CountOverflow | PublishRaised | AckFailed

  datatype Tally = Tally(replayed: nat, failed: nat, requeued: nat, skipped: nat, refused: nat)

  function Total(t: Tally): nat { t.replayed + t.failed + t.requeued + t.skipped + t.refused }

  datatype Exit = Returned(tally: Tally) | Raised(error: Error)

  /** One republish attempt. */
  datatype Attempt = Attempt(original: Msg, envelope: Envelope, answer: Answer)

  /** What happened during one replay: messages read, originals acknowledged, copies that came back, messages
      never read, and every republish. */
  datatype Trace = Trace(fetched: seq<Msg>, acked: seq<Msg>, copies: seq<Msg>, rest: seq<Msg>, attempts: seq<Attempt>)

  ghost function Gone(t: Trace): set<Msg> { set m | m in t.acked }

  ghost function Held(t: Trace): seq<Msg> { Without(t.fetched, Gone(t)) }

  // ---------------------------------------------------------------- the guard

  datatype Version = Unreadable | Major(major: Option<nat>)

  datatype Lookup = NoClient | Broken | Missing | Found(info: QueueInfo, version: Version)

  datatype Guard = Refuse | Unvetted | Vetted(whole: Option<bool>)

  predicate Browsable(info: QueueInfo, major: Option<nat>) {
    info.quorum ==> major.Some? && info.hasStats && EffectiveDeliveryLimit(info, major) == None
  }

  /** `_ensure_browsable`: refuse, nothing could be checked, or vetted, and then whether it is read only whole. */
  function EnsureBrowsable(check: bool, known: bool, lookup: Lookup, maxScan: nat): Guard {
    if !check then Vetted(None)
    else if known then Refuse
    else match lookup
         case NoClient => Unvetted
         case Broken => Refuse
         case Missing => Unvetted
         case Found(_, Unreadable) => Refuse
         case Found(info, Major(major)) =>
           if !Browsable(info, major) || (info.quorum && info.ready > maxScan) then Refuse
           else Vetted(Some(info.quorum))
  }

  /** A vetted queue loses nothing to requeues, however often its messages have been returned, and one that is read
      whole fits the scan. */
  lemma VettedIsSafe(known: bool, info: QueueInfo, major: Option<nat>, maxScan: nat, count: nat)
    requires EnsureBrowsable(true, known, Found(info, Major(major)), maxScan).Vetted?
    ensures major.Some? ==> SurvivesReturn(info, major.value, count)
    ensures info.quorum ==> major.Some? && info.ready <= maxScan
  {
    if major.Some? { LimitIsExact(info, major.value, count); }
  }

  /** A queue is refused exactly when its safety could not be established or some message in it would not outlive one
      more return, and it is left unvetted exactly when there is nothing to ask. */
  lemma GuardIff(check: bool, known: bool, lookup: Lookup, maxScan: nat)
    ensures EnsureBrowsable(check, known, lookup, maxScan) == Refuse <==>
              && check
              && (|| known || lookup == Broken
                  || (lookup.Found? && !SafeToBrowse(lookup.info, lookup.version, maxScan)))
    ensures EnsureBrowsable(check, known, lookup, maxScan) == Unvetted <==>
              check && !known && (lookup == NoClient || lookup == Missing)
    ensures EnsureBrowsable(check, known, lookup, maxScan).Vetted? ==>
              EnsureBrowsable(check, known, lookup, maxScan).whole ==
              if check && lookup.Found? then Some(lookup.info.quorum) else None
  {
    if lookup.Found? && lookup.version.Major? && lookup.version.major.Some? {
      LimitIff(lookup.info, lookup.version.major.value);
    }
  }

  ghost predicate SafeToBrowse(info: QueueInfo, version: Version, maxScan: nat) {
    && version.Major?
    && (info.quorum ==>
          && version.major.Some? && info.hasStats && info.ready <= maxScan
          && forall count: nat :: SurvivesReturn(info, version.major.value, count))
  }

  lemma LimitIff(info: QueueInfo, major: nat)
    ensures EffectiveDeliveryLimit(info, Some(major)) == None <==>
            forall count: nat :: SurvivesReturn(info, major, count)
  {
    forall count: nat ensures EffectiveDeliveryLimit(info, Some(major)) == None ==> SurvivesReturn(info, major, count) {
      LimitIsExact(info, major, count);
    }
    var limit := EffectiveDeliveryLimit(info, Some(major));
    if limit.Some? { LimitIsExact(info, major, NonNegative(limit.value)); }
  }

  /** A header only a quorum queue sets, on a queue that could not be vetted. */
  predicate Trips(m: Msg, vetted: bool) { !vetted && DELIVERY_COUNT in m.headers }

  /** `_vet_requeue`: the vetting so far, or a late one; nothing when the message must not be requeued. */
  function LateVet(guard: Guard, vetted: Option<bool>, m: Msg): Option<bool> {
    var v := if vetted.Some? then vetted
      else match guard case Refuse => None case Unvetted => Some(false) case Vetted(_) => Some(true);
    if v == None || Trips(m, v.value) then None else v
  }

  // ---------------------------------------------------------------- one message

  datatype Decision = Leave(tally: Tally) | Send(envelope: Envelope) | Fail(error: Error)

  const NON_MATCHING := Tally(0, 0, 1, 0, 0)
  const SKIPPED := Tally(0, 0, 0, 1, 0)
  const REFUSED := Tally(0, 0, 0, 0, 1)
  const FAILED := Tally(0, 1, 0, 0, 0)
  const REPLAYED := Tally(1, 0, 0, 0, 0)

  function Add(a: Tally, b: Tally): Tally {
    Tally(a.replayed + b.replayed, a.failed + b.failed, a.requeued + b.requeued, a.skipped + b.skipped,
          a.refused + b.refused)
  }

  /** The branches between fetching a message and publishing it. */
  function Decide(m: Msg, opts: Options, filter: Option<Msg -> Verdict>, now: string): Decision {
    if filter.Some? && filter.value(m) == Throws then Fail(PredicateRaised)
    else if filter.Some? && filter.value(m) == NoMatch then Leave(NON_MATCHING)
    else if opts.maxReplays.Some? && ReplayCount(m.headers) == None then Fail(CountOverflow)
    else if OverLimit(m, opts.maxReplays) then Leave(REFUSED)
    else match ReplayEnvelope(m, opts, now)
         case None => Fail(CountOverflow)
         case Some(e) => if SelfReplay(e, opts) then Leave(SKIPPED) else Send(e)
  }

  /** What one fetched message came to. */
  datatype Handled = Kept(tally: Tally) | Replayed | Broke(error: Error)

  function Outcome(d: Decision, m: Msg, env: Env, n: nat, guard: Guard, vetted: Option<bool>): Handled {
    match d
    case Fail(error) => Broke(error)
    case Leave(tally) =>
      if tally != NON_MATCHING && LateVet(guard, vetted, m) == None then Broke(UnsafeToBrowse) else Kept(tally)
    case Send(e) => (
      match env.publish(n, e)
      case Threw => Broke(PublishRaised)
      case Declined => if LateVet(guard, vetted, m) == None then Broke(UnsafeToBrowse) else Kept(FAILED)
      case Accepted => if env.ackFails(n) then Broke(AckFailed) else Replayed)
  }

  function Handle(m: Msg, opts: Options, env: Env, n: nat, guard: Guard, vetted: Option<bool>): Handled {
    if vetted.Some? && Trips(m, vetted.value) then Broke(UnsafeToBrowse)
    else Outcome(Decide(m, opts, env.filter, env.now(n)), m, env, n, guard, vetted)
  }

  /** The vetting carried to the next message: a requeue by an unfiltered replay settles it. */
  function Carried(d: Decision, m: Msg, env: Env, n: nat, guard: Guard, vetted: Option<bool>): Option<bool> {
    if Outcome(d, m, env, n, guard, vetted).Broke? then vetted
    else match d
         case Leave(tally) => if tally == NON_MATCHING then vetted else LateVet(guard, vetted, m)
         case Send(e) => if env.publish(n, e) == Declined then LateVet(guard, vetted, m) else vetted
         case Fail(_) => vetted
  }

  function VettedAfter(m: Msg, opts: Options, env: Env, n: nat, guard: Guard, vetted: Option<bool>): Option<bool> {
    if vetted.Some? && Trips(m, vetted.value) then vetted
    else Carried(Decide(m, opts, env.filter, env.now(n)), m, env, n, guard, vetted)
  }

  /** A vetting agrees with the guard, and a filtered replay has had one. */
  predicate Fits(vetted: Option<bool>, guard: Guard, filter: Option<Msg -> Verdict>) {
    && (vetted.Some? ==> guard != Refuse && (vetted.value <==> guard.Vetted?))
    && (filter.Some? ==> vetted.Some?)
  }

  /** What is kept was vetted and carries no sign of a quorum queue unless the queue was checked; what is not kept for
      want of safety was refused, or carries that sign. */
  lemma HandleIsGuarded(m: Msg, opts: Options, env: Env, n: nat, guard: Guard, vetted: Option<bool>)
    requires Fits(vetted, guard, env.filter)
    ensures Fits(VettedAfter(m, opts, env, n, guard, vetted), guard, env.filter)
    ensures match Handle(m, opts, env, n, guard, vetted)
            case Kept(_) =>
              && VettedAfter(m, opts, env, n, guard, vetted).Some?
              && (guard == Unvetted ==> DELIVERY_COUNT !in m.headers)
            case Replayed => VettedAfter(m, opts, env, n, guard, vetted) == vetted
            case Broke(error) =>
              error == UnsafeToBrowse ==> guard == Refuse || (guard == Unvetted && DELIVERY_COUNT in m.headers)
  {
  }

  /** Whether the message was handed to the publisher at all. */
  predicate Publishes(m: Msg, opts: Options, env: Env, n: nat, vetted: Option<bool>) {
    !(vetted.Some? && Trips(m, vetted.value)) && Decide(m, opts, env.filter, env.now(n)).Send?
  }

  // ---------------------------------------------------------------- how many fetches there can be

  /** The fetches one ready message can cost: its own, and one for each replay it still has. */
  function Cost(max: int, m: Msg): nat {
    match ReplayCount(m.headers)
    case None => 1
    case Some(n) => 1 + NonNegative(max - n)
  }

  function TotalCost(max: int, ms: seq<Msg>): nat {
    if ms == [] then 0 else Cost(max, ms[0]) + TotalCost(max, ms[1..])
  }

  lemma {:induction false} CostSnoc(max: int, ms: seq<Msg>, m: Msg)
    ensures TotalCost(max, ms + [m]) == TotalCost(max, ms) + Cost(max, m)
  {
    if ms == [] {
      assert ms + [m] == [m];
    } else {
      CostSnoc(max, ms[1..], m);
      assert (ms + [m])[1..] == ms[1..] + [m];
    }
  }

  /** A copy that comes back has used up one replay. */
  lemma CopyCostsLess(m: Msg, opts: Options, p: Option<Msg -> Verdict>, now: string, copy: Msg)
    requires opts.maxReplays.Some? && Decide(m, opts, p, now).Send?
    requires ReplayCount(copy.headers) == ReplayCount(Decide(m, opts, p, now).envelope.headers)
    ensures Cost(opts.maxReplays.value, copy) < Cost(opts.maxReplays.value, m)
  {
    StampCountsUp(m.headers, opts.resetRetry, opts.actor, now);
  }

  ghost predicate HeaderPreserving(env: Env) {
    forall k, e :: env.comesBack(k, e).Some? ==>
      ReplayCount(env.comesBack(k, e).value.headers) == ReplayCount(e.headers)
  }

  ghost predicate NothingComesBack(env: Env) { forall k, e :: env.comesBack(k, e) == None }

  /** With no limit on the fetches, something else must bound the loop. */
  ghost predicate Ends(opts: Options, env: Env) {
    opts.limit.Some? || NothingComesBack(env) || (opts.maxReplays.Some? && HeaderPreserving(env))
  }

  // ---------------------------------------------------------------- the objects

  lemma StuckStep(kept: seq<Msg>, held: seq<Msg>, fails: Msg -> bool)
    requires held != []
    ensures kept + Stuck(held, fails) == (if fails(held[0]) then kept + [held[0]] else kept) + Stuck(held[1..], fails)
  {
    if fails(held[0]) {
      assert kept + ([held[0]] + Stuck(held[1..], fails)) == kept + [held[0]] + Stuck(held[1..], fails);
    } else {
      assert [] + Stuck(held[1..], fails) == Stuck(held[1..], fails);
    }
  }

  class DlqQueue {
    const kind: Kind
    var ready: seq<Msg>
    var unacked: seq<Msg>
    var acked: seq<Msg>
    var pending: seq<Msg>
    var nextPos: nat

    function Now(): Books
      reads this
    {
      Books(ready, unacked, acked, pending, nextPos)
    }

    /** Copies on their way arrive at the back, in the order the environment chooses. */
    method Arrive(moves: seq<nat>)
      modifies this`ready, this`pending, this`nextPos
      ensures Now() == Arrived(old(Now()), moves)
    {
      var left := moves;
      while left != []
        invariant Arrived(Now(), left) == Arrived(old(Now()), moves) && unacked == old(unacked) && acked == old(acked)
        decreases |left|
      {
        var i := left[0];
        if i < |pending| {
          ready := ready + [pending[i].(pos := nextPos)];
          pending := pending[..i] + pending[i + 1..];
          nextPos := nextPos + 1;
        }
        left := left[1..];
      }
    }

    method Get(fails: bool) returns (r: Option<Msg>)
      modifies this`ready, this`unacked
      ensures fails || old(ready) == [] ==> r == None && ready == old(ready) && unacked == old(unacked)
      ensures !fails && old(ready) != [] ==>
                r == Some(old(ready)[0]) && ready == old(ready)[1..] && unacked == old(unacked) + [old(ready)[0]]
    {
      if fails || ready == [] { return None; }
      r := Some(ready[0]);
      unacked := unacked + [ready[0]];
      ready := ready[1..];
    }

    method AckLast()
      requires unacked != []
      modifies this`unacked, this`acked
      ensures unacked == old(unacked)[..|old(unacked)| - 1] && acked == old(acked) + [old(unacked)[|old(unacked)| - 1]]
    {
      acked := acked + [unacked[|unacked| - 1]];
      unacked := unacked[..|unacked| - 1];
    }

    /** `_release_messages` on everything held, in the order it was read. */
    method ReleaseHeld(fails: Msg -> bool)
      modifies this`ready, this`unacked
      ensures ready == ReleaseAll(kind, old(ready), old(unacked), fails)
      ensures unacked == Stuck(old(unacked), fails)
    {
      var held := unacked;
      unacked := [];
      ghost var all := held;
      assert unacked + Stuck(held, fails) == Stuck(all, fails);
      while held != []
        invariant ReleaseAll(kind, ready, held, fails) == ReleaseAll(kind, old(ready), all, fails)
        invariant unacked + Stuck(held, fails) == Stuck(all, fails)
        decreases |held|
      {
        var m := held[0];
        StuckStep(unacked, held, fails);
        if fails(m) {
          unacked := unacked + [m];
        } else if kind == Classic {
          ready := Insert(ready, m);
        } else {
          ready := ready + [m];
        }
        held := held[1..];
      }
    }
  }

  /** The copy of a republish that will return to this queue. */
  function Copy(m: Msg, opts: Options, env: Env, n: nat, vetted: Option<bool>): seq<Msg> {
    if Publishes(m, opts, env, n, vetted) then
      match env.comesBack(n, Decide(m, opts, env.filter, env.now(n)).envelope)
      case Some(back) => [back]
      case None => []
    else []
  }

  function Sent(m: Msg, opts: Options, env: Env, n: nat, vetted: Option<bool>): seq<Attempt> {
    if Publishes(m, opts, env, n, vetted) then
      var e := Decide(m, opts, env.filter, env.now(n)).envelope;
      [Attempt(m, e, env.publish(n, e))]
    else []
  }

  // ---------------------------------------------------------------- a replay under way

  /** A broker-side view: what is ready, unacknowledged and acknowledged, and the copies on their way. */
  datatype Books = Books(ready: seq<Msg>, unacked: seq<Msg>, acked: seq<Msg>, pending: seq<Msg>, nextPos: nat)

  function ArriveOne(b: Books, i: nat): Books {
    if i < |b.pending| then
      b.(ready := b.ready + [b.pending[i].(pos := b.nextPos)], pending := b.pending[..i] + b.pending[i + 1..],
         nextPos := b.nextPos + 1)
    else b
  }

  function Arrived(b: Books, moves: seq<nat>): Books
    decreases |moves|
  {
    if moves == [] then b else Arrived(ArriveOne(b, moves[0]), moves[1..])
  }

  /** The arrivals, recorded. */
  ghost function Noted(b: Books, t: Trace, moves: seq<nat>): Trace
    decreases |moves|
  {
    if moves == [] then t
    else if moves[0] < |b.pending| then
      Noted(ArriveOne(b, moves[0]), t.(copies := t.copies + [b.pending[moves[0]].(pos := b.nextPos)]), moves[1..])
    else Noted(b, t, moves[1..])
  }

  ghost predicate Numbered(ms: seq<Msg>, nextPos: nat) { Distinct(ms) && forall m :: m in ms ==> m.pos < nextPos }

  /** Every acknowledged original was republished first, with an accepted answer, as the envelope built from it. */
  ghost predicate Justified(t: Trace, opts: Options, env: Env) {
    && (forall k :: 0 <= k < |t.attempts| ==> AttemptOk(t.attempts[k], opts, env, k))
    && (forall m :: m in t.acked ==> Republished(t.attempts, m))
  }

  ghost predicate AttemptOk(a: Attempt, opts: Options, env: Env, k: nat) {
    && Decide(a.original, opts, env.filter, env.now(k)) == Send(a.envelope)
    && a.answer == env.publish(k, a.envelope)
  }

  ghost predicate Republished(attempts: seq<Attempt>, m: Msg) {
    exists k :: 0 <= k < |attempts| && attempts[k].original == m && attempts[k].answer == Accepted
  }

  /** No original is acknowledged twice, and a queue that was in order of arrival is still read in it. */
  ghost predicate Orderly(r0: seq<Msg>, b: Books, t: Trace) {
    && Distinct(t.acked)
    && (InOrder(r0) ==> InOrder(t.fetched + b.ready))
  }

  ghost predicate Underway(r0: seq<Msg>, a0: seq<Msg>, b: Books, t: Trace, opts: Options, env: Env) {
    && t.fetched + b.ready == r0 + t.copies
    && b.unacked == Held(t)
    && b.acked == a0 + t.acked
    && Numbered(t.fetched + b.ready, b.nextPos)
    && Orderly(r0, b, t)
    && (forall m :: m in t.acked ==> m in t.fetched)
    && Justified(t, opts, env)
    && |t.copies| + |b.pending| <= |t.attempts|
    && (NothingComesBack(env) ==> t.copies == [] && b.pending == [])
    && (opts.maxReplays.Some? && (NothingComesBack(env) || HeaderPreserving(env)) ==>
          |t.fetched| + Potential(opts.maxReplays.value, b) <= TotalCost(opts.maxReplays.value, r0))
  }

  /** The fetches the ready messages and the copies on their way can still cost. */
  function Potential(max: int, b: Books): nat { TotalCost(max, b.ready) + TotalCost(max, b.pending) }

  /** The next message is read. */
  ghost function Fetch(t: Trace, m: Msg): Trace { t.(fetched := t.fetched + [m]) }

  lemma FetchKeeps(r0: seq<Msg>, a0: seq<Msg>, b: Books, t: Trace, opts: Options, env: Env)
    requires Underway(r0, a0, b, t, opts, env) && b.ready != []
    ensures var m := b.ready[0];
            && m !in t.fetched && m !in t.acked
            && t.fetched + [m] + b.ready[1..] == r0 + t.copies
            && b.unacked + [m] == Held(Fetch(t, m))
            && Numbered(t.fetched + [m] + b.ready[1..], b.nextPos)
  {
    var m := b.ready[0];
    assert t.fetched + [m] + b.ready[1..] == t.fetched + b.ready;
    var all := t.fetched + b.ready;
    assert all[|t.fetched|] == m;
    forall i | 0 <= i < |t.fetched| ensures t.fetched[i] != m { assert all[i] == t.fetched[i]; }
    WithoutSnoc(t.fetched, Gone(t), m);
  }

  /** ... and handled: `after` is the trace once its republish and its acknowledgement are recorded. */
  ghost function After(t: Trace, m: Msg, sent: seq<Attempt>, acks: bool): Trace {
    Trace(t.fetched + [m], if acks then t.acked + [m] else t.acked, t.copies, t.rest, t.attempts + sent)
  }

  lemma GoneSnoc(t: Trace, m: Msg, sent: seq<Attempt>, acks: bool)
    ensures Gone(After(t, m, sent, acks)) == Gone(t) + if acks then {m} else {}
  {
  }

  lemma HandledHeld(t: Trace, m: Msg, sent: seq<Attempt>, acks: bool)
    requires m !in t.fetched && m !in t.acked
    ensures Held(After(t, m, sent, acks)) == Held(t) + if acks then [] else [m]
  {
    var gone, gone' := Gone(t), Gone(After(t, m, sent, acks));
    GoneSnoc(t, m, sent, acks);
    WithoutSnoc(t.fetched, gone', m);
    if acks { WithoutMore(t.fetched, gone, m); } else { assert gone' == gone; }
  }

  lemma HandledJustified(t: Trace, m: Msg, opts: Options, env: Env, guard: Guard, vetted: Option<bool>)
    requires Justified(t, opts, env)
    ensures var n := |t.attempts|;
            Justified(After(t, m, Sent(m, opts, env, n, vetted), Handle(m, opts, env, n, guard, vetted) == Replayed),
                      opts, env)
  {
    var n := |t.attempts|;
    var sent := Sent(m, opts, env, n, vetted);
    var t' := After(t, m, sent, Handle(m, opts, env, n, guard, vetted) == Replayed);
    forall k | 0 <= k < |t'.attempts| ensures AttemptOk(t'.attempts[k], opts, env, k) {
      if k < n { assert t'.attempts[k] == t.attempts[k]; }
    }
    forall x | x in t'.acked ensures Republished(t'.attempts, x) {
      if x in t.acked {
        var k :| 0 <= k < n && t.attempts[k].original == x && t.attempts[k].answer == Accepted;
        assert t'.attempts[k] == t.attempts[k];
      } else {
        assert t'.attempts[n] == sent[0];
      }
    }
  }

  lemma HandledCost(r0: seq<Msg>, b: Books, m: Msg, opts: Options, env: Env, n: nat, vetted: Option<bool>)
    requires b.ready != [] && m == b.ready[0] && opts.maxReplays.Some?
             && (NothingComesBack(env) || HeaderPreserving(env))
    ensures TotalCost(opts.maxReplays.value, b.ready[1..]) +
            TotalCost(opts.maxReplays.value, b.pending + Copy(m, opts, env, n, vetted))
            < Potential(opts.maxReplays.value, b)
  {
    var copy := Copy(m, opts, env, n, vetted);
    var max := opts.maxReplays.value;
    if copy == [] {
      assert b.pending + copy == b.pending;
    } else {
      CostSnoc(max, b.pending, copy[0]);
      assert b.pending + copy == b.pending + [copy[0]];
      CopyCostsLess(m, opts, env.filter, env.now(n), copy[0]);
    }
  }

  lemma DistinctSnoc(ms: seq<Msg>, m: Msg)
    requires Distinct(ms) && forall x :: x in ms ==> x.pos != m.pos
    ensures Distinct(ms + [m])
  {
    forall i, j | 0 <= i < j < |ms + [m]| ensures (ms + [m])[i].pos != (ms + [m])[j].pos { assert (ms + [m])[i] in ms; }
  }

  lemma HandledOrderly(r0: seq<Msg>, b: Books, t: Trace, sent: seq<Attempt>, acks: bool)
    requires Orderly(r0, b, t) && Numbered(t.fetched + b.ready, b.nextPos) && b.ready != []
    requires forall m :: m in t.acked ==> m in t.fetched
    ensures Orderly(r0, b.(ready := b.ready[1..]), After(t, b.ready[0], sent, acks))
  {
    var m, all := b.ready[0], t.fetched + b.ready;
    assert all[|t.fetched|] == m;
    forall x | x in t.acked ensures x.pos != m.pos {
      var i :| 0 <= i < |t.fetched| && t.fetched[i] == x;
      assert all[i] == x;
    }
    DistinctSnoc(t.acked, m);
    assert (t.fetched + [m]) + b.ready[1..] == all;
  }

  /** The broker's view and the trace once the message at the head has been read and handled. */
  ghost function NextBooks(b: Books, opts: Options, env: Env, n: nat, guard: Guard, vetted: Option<bool>): Books
    requires b.ready != []
  {
    var m := b.ready[0];
    var acks := Handle(m, opts, env, n, guard, vetted) == Replayed;
    Books(b.ready[1..], b.unacked + (if acks then [] else [m]), b.acked + (if acks then [m] else []),
          b.pending + Copy(m, opts, env, n, vetted), b.nextPos)
  }

  ghost function NextTrace(b: Books, t: Trace, opts: Options, env: Env, guard: Guard, vetted: Option<bool>): Trace
    requires b.ready != []
  {
    var m, n := b.ready[0], |t.attempts|;
    After(t, m, Sent(m, opts, env, n, vetted), Handle(m, opts, env, n, guard, vetted) == Replayed)
  }

  lemma HandledFlow(r0: seq<Msg>, a0: seq<Msg>, b: Books, t: Trace, sent: seq<Attempt>, acks: bool)
    requires t.fetched + b.ready == r0 + t.copies && Numbered(t.fetched + b.ready, b.nextPos) && b.acked == a0 + t.acked
             && b.ready != []
    ensures var t' := After(t, b.ready[0], sent, acks);
            && t'.fetched + b.ready[1..] == r0 + t'.copies
            && Numbered(t'.fetched + b.ready[1..], b.nextPos)
            && b.acked + (if acks then [b.ready[0]] else []) == a0 + t'.acked
  {
    assert (t.fetched + [b.ready[0]]) + b.ready[1..] == t.fetched + b.ready;
  }

  lemma HandledKeeps(r0: seq<Msg>, a0: seq<Msg>, b: Books, t: Trace, opts: Options, env: Env, guard: Guard,
                     vetted: Option<bool>)
    requires Underway(r0, a0, b, t, opts, env) && b.ready != []
    ensures Underway(r0, a0, NextBooks(b, opts, env, |t.attempts|, guard, vetted),
                     NextTrace(b, t, opts, env, guard, vetted), opts, env)
  {
    var m, n := b.ready[0], |t.attempts|;
    var acks, sent := Handle(m, opts, env, n, guard, vetted) == Replayed, Sent(m, opts, env, n, vetted);
    FetchKeeps(r0, a0, b, t, opts, env);
    HandledHeld(t, m, sent, acks);
    HandledJustified(t, m, opts, env, guard, vetted);
    HandledOrderly(r0, b, t, sent, acks);
    HandledFlow(r0, a0, b, t, sent, acks);
    if opts.maxReplays.Some? && (NothingComesBack(env) || HeaderPreserving(env)) {
      HandledCost(r0, b, m, opts, env, n, vetted);
    }
  }

  // ---------------------------------------------------------------- copies arrive

  lemma {:induction false} CostConcat(max: int, a: seq<Msg>, b: seq<Msg>)
    ensures TotalCost(max, a + b) == TotalCost(max, a) + TotalCost(max, b)
  {
    if a == [] {
      assert a + b == b;
    } else {
      CostConcat(max, a[1..], b);
      assert (a + b)[1..] == a[1..] + b;
    }
  }

  /** Wherever a copy is and whatever its place in the queue, it costs the same. */
  lemma ArrivalCost(max: int, b: Books, i: nat)
    requires i < |b.pending|
    ensures Potential(max, ArriveOne(b, i)) == Potential(max, b)
  {
    var m := b.pending[i];
    var placed := m.(pos := b.nextPos);
    CostSnoc(max, b.ready, placed);
    CostConcat(max, b.pending[..i], b.pending[i + 1..]);
    CostConcat(max, b.pending[..i], [m]);
    CostConcat(max, b.pending[..i] + [m], b.pending[i + 1..]);
    assert b.pending[..i] + [m] + b.pending[i + 1..] == b.pending;
    assert TotalCost(max, [m]) == Cost(max, m) == Cost(max, placed);
  }

  lemma ArrivalOrderly(r0: seq<Msg>, b: Books, t: Trace, m: Msg)
    requires Orderly(r0, b, t) && Numbered(t.fetched + b.ready, b.nextPos) && m.pos == b.nextPos
    ensures Orderly(r0, b.(ready := b.ready + [m]), t) && Numbered(t.fetched + (b.ready + [m]), b.nextPos + 1)
  {
    var all := t.fetched + b.ready;
    assert t.fetched + (b.ready + [m]) == all + [m];
    NumberedSnoc(all, b.nextPos, [m]);
    if InOrder(r0) {
      forall i, j | 0 <= i < j < |all + [m]| ensures (all + [m])[i].pos < (all + [m])[j].pos {
        assert (all + [m])[i] in all;
      }
    }
  }

  lemma ArrivalKeeps(r0: seq<Msg>, a0: seq<Msg>, b: Books, t: Trace, opts: Options, env: Env, i: nat)
    requires Underway(r0, a0, b, t, opts, env) && i < |b.pending|
    ensures Underway(r0, a0, ArriveOne(b, i), t.(copies := t.copies + [b.pending[i].(pos := b.nextPos)]), opts, env)
  {
    var m := b.pending[i].(pos := b.nextPos);
    ArrivalOrderly(r0, b, t, m);
    assert t.fetched + (b.ready + [m]) == (t.fetched + b.ready) + [m];
    assert r0 + (t.copies + [m]) == (r0 + t.copies) + [m];
    if opts.maxReplays.Some? { ArrivalCost(opts.maxReplays.value, b, i); }
    var t' := t.(copies := t.copies + [m]);
    assert Gone(t') == Gone(t);
  }

  lemma {:induction false} ArrivalsKeep(r0: seq<Msg>, a0: seq<Msg>, b: Books, t: Trace, opts: Options, env: Env,
                                        moves: seq<nat>)
    requires Underway(r0, a0, b, t, opts, env)
    ensures Underway(r0, a0, Arrived(b, moves), Noted(b, t, moves), opts, env)
    decreases |moves|
  {
    if moves != [] {
      if moves[0] < |b.pending| {
        ArrivalKeeps(r0, a0, b, t, opts, env, moves[0]);
        ArrivalsKeep(r0, a0, ArriveOne(b, moves[0]), t.(copies := t.copies + [b.pending[moves[0]].(pos := b.nextPos)]),
                     opts, env, moves[1..]);
      } else {
        ArrivalsKeep(r0, a0, b, t, opts, env, moves[1..]);
      }
    }
  }

  /** Arrivals cost nothing, and touch nothing else. */
  lemma {:induction false} ArrivalsSpare(b: Books, t: Trace, moves: seq<nat>, max: int)
    ensures Potential(max, Arrived(b, moves)) == Potential(max, b)
    ensures Arrived(b, moves).unacked == b.unacked && Arrived(b, moves).acked == b.acked
    ensures b.pending == [] ==> Arrived(b, moves) == b
    ensures Noted(b, t, moves).fetched == t.fetched && Noted(b, t, moves).attempts == t.attempts
            && Noted(b, t, moves).acked == t.acked
    decreases |moves|
  {
    if moves != [] {
      var i := moves[0];
      if i < |b.pending| {
        ArrivalCost(max, b, i);
        ArrivalsSpare(ArriveOne(b, i), t.(copies := t.copies + [b.pending[i].(pos := b.nextPos)]), moves[1..], max);
      } else {
        ArrivalsSpare(b, t, moves[1..], max);
      }
    }
  }

  lemma NumberedSnoc(ms: seq<Msg>, nextPos: nat, more: seq<Msg>)
    requires Numbered(ms, nextPos) && (|more| == 0 || (|more| == 1 && more[0].pos == nextPos))
    ensures Numbered(ms + more, nextPos + |more|)
  {
    forall i, j | 0 <= i < j < |ms + more| ensures (ms + more)[i].pos != (ms + more)[j].pos {
      assert (ms + more)[i] in ms;
    }
  }

  lemma UnderwayStart(r0: seq<Msg>, a0: seq<Msg>, b: Books, t: Trace, opts: Options, env: Env)
    requires Numbered(r0, b.nextPos) && b.ready == r0 && b.unacked == [] && b.acked == a0 && b.pending == []
    requires t.fetched == [] && t.acked == [] && t.copies == [] && t.attempts == []
    ensures Underway(r0, a0, b, t, opts, env)
  {
    assert [] + r0 == r0 + [] == r0;
    assert a0 + [] == a0;
  }

  /** What bounds the loop: the fetch limit, the replays still possible, or the ready messages. */
  ghost function LoopMeasure(opts: Options, b: Books, fetched: nat): int {
    if opts.limit.Some? then opts.limit.value - fetched
    else if opts.maxReplays.Some? then Potential(opts.maxReplays.value, b)
    else |b.ready|
  }

  lemma MeasureDrops(opts: Options, env: Env, b: Books, n: nat, guard: Guard, vetted: Option<bool>, fetched: nat)
    requires Ends(opts, env) && b.ready != []
    ensures LoopMeasure(opts, NextBooks(b, opts, env, n, guard, vetted), fetched + 1) < LoopMeasure(opts, b, fetched)
  {
    if opts.limit == None && opts.maxReplays.Some? { HandledCost(b.ready, b, b.ready[0], opts, env, n, vetted); }
  }

  /** Arrivals leave it as it was. */
  lemma MeasureStays(opts: Options, env: Env, b: Books, t: Trace, moves: seq<nat>, fetched: nat)
    requires Ends(opts, env) && (NothingComesBack(env) ==> b.pending == [])
    ensures LoopMeasure(opts, Arrived(b, moves), fetched) == LoopMeasure(opts, b, fetched)
  {
    ArrivalsSpare(b, t, moves, if opts.maxReplays.Some? then opts.maxReplays.value else 0);
  }

  const NOTHING := Tally(0, 0, 0, 0, 0)

  /** The loop's variables. */
  datatype Progress = Progress(running: bool, error: Option<Error>, fetched: nat, published: nat, tally: Tally,
                               vetted: Option<bool>)

  /** Messages the filter turned down. */
  function NotMatching(ms: seq<Msg>, filter: Option<Msg -> Verdict>): nat {
    if ms == [] then 0 else NotMatching(Prefix(ms), filter) + if Rejects(filter, Final(ms)) then 1 else 0
  }

  /** Replayed as often as allowed, or more. */
  predicate Spent(m: Msg, opts: Options) {
    && opts.maxReplays.Some? && ReplayCount(m.headers).Some?
    && ReplayCount(m.headers).value >= opts.maxReplays.value
  }

  /** The default exchange would route it by the name of the very queue it is read from, and that is not allowed. */
  predicate BoundBack(m: Msg, opts: Options) {
    && !opts.allowSelfReplay && opts.targetExchange in {None, Some("")}
    && ResolveRoutingKey(m.headers, m.routingKey, "", opts.targetQueue) == opts.queue
  }

  /** Messages that matched and had been replayed too often. */
  function Exhausted(ms: seq<Msg>, opts: Options, filter: Option<Msg -> Verdict>): nat {
    if ms == [] then 0
    else Exhausted(Prefix(ms), opts, filter) + if !Rejects(filter, Final(ms)) && Spent(Final(ms), opts) then 1 else 0
  }

  /** Messages that matched, could still be replayed, and would have come straight back. */
  function Bouncing(ms: seq<Msg>, opts: Options, filter: Option<Msg -> Verdict>): nat {
    if ms == [] then 0
    else
      var m := Final(ms);
      Bouncing(Prefix(ms), opts, filter) +
      if !Rejects(filter, m) && !Spent(m, opts) && BoundBack(m, opts) then 1 else 0
  }

  /** A message a replay republishes. */
  predicate Eligible(m: Msg, opts: Options, filter: Option<Msg -> Verdict>) {
    !Rejects(filter, m) && !Spent(m, opts) && !BoundBack(m, opts)
  }

  function Eligibles(ms: seq<Msg>, opts: Options, filter: Option<Msg -> Verdict>): seq<Msg> {
    if ms == [] then []
    else Eligibles(Prefix(ms), opts, filter) + if Eligible(Final(ms), opts, filter) then [Final(ms)] else []
  }

  function Originals(attempts: seq<Attempt>): seq<Msg> {
    if attempts == [] then [] else Originals(Prefix(attempts)) + [Final(attempts).original]
  }

  /** Republishes that were not accepted. */
  function Refusals(attempts: seq<Attempt>): nat {
    if attempts == [] then 0 else Refusals(Prefix(attempts)) + if Final(attempts).answer == Declined then 1 else 0
  }

  /** Each count is of what its name says. */
  ghost predicate Exact(tally: Tally, t: Trace, opts: Options, env: Env) {
    && Total(tally) == |t.fetched| && tally.replayed == |t.acked| && tally.failed == Refusals(t.attempts)
    && tally.requeued == NotMatching(t.fetched, env.filter) && tally.refused == Exhausted(t.fetched, opts, env.filter)
    && tally.skipped == Bouncing(t.fetched, opts, env.filter)
  }

  /** Raised over a message that may not have been republished yet. */
  predicate BeforeSending(error: Option<Error>) {
    error.Some? && (error.value.UnsafeToBrowse? || error.value.PredicateRaised? || error.value.CountOverflow?)
  }

  /** Exactly the messages that should be were republished, in the order they were read; only the last one read may be
      missing, if it raised before it came to that. */
  ghost predicate Tried(t: Trace, opts: Options, env: Env, early: bool) {
    || Originals(t.attempts) == Eligibles(t.fetched, opts, env.filter)
    || (early && t.fetched != [] && Originals(t.attempts) == Eligibles(Prefix(t.fetched), opts, env.filter))
  }

  predicate Disturbs(filter: Option<Msg -> Verdict>, m: Msg) { filter.Some? && filter.value(m) == Throws }

  /** A republish that did not raise, and neither did the acknowledgement after it. */
  predicate Landed(answer: Answer, env: Env, k: nat) { answer != Threw && (answer == Accepted ==> !env.ackFails(k)) }

  /** Nothing that was read or sent raised. */
  ghost predicate Unhurt(t: Trace, env: Env) {
    && (forall i :: 0 <= i < |t.fetched| ==> !Disturbs(env.filter, t.fetched[i]))
    && (forall k :: 0 <= k < |t.attempts| ==> Landed(t.attempts[k].answer, env, k))
  }

  /** Why a replay raised. */
  ghost predicate Explained(error: Error, t: Trace, env: Env) {
    match error
    case UnsafeToBrowse => true
    case GetFailed => env.getFails(|t.fetched|)
    case PredicateRaised => t.fetched != [] && Disturbs(env.filter, Final(t.fetched))
    case CountOverflow => t.fetched != [] && ReplayCount(Final(t.fetched).headers) == None
    case PublishRaised => t.attempts != [] && Final(t.attempts).answer == Threw
    case AckFailed => t.attempts != [] && Final(t.attempts).answer == Accepted && env.ackFails(|t.attempts| - 1)
  }

  ghost predicate Counted(p: Progress, t: Trace, opts: Options, env: Env) {
    && p.fetched == |t.fetched| && p.published == |t.attempts|
    && (p.error == None ==> Exact(p.tally, t, opts, env) && Unhurt(t, env))
    && (p.error.Some? ==> Explained(p.error.value, t, env))
    && Tried(t, opts, env, BeforeSending(p.error))
    && (p.running ==> p.error == None)
  }

  /** Nothing is held of a queue that must not be browsed, nor anything that shows an unchecked queue to be one. */
  ghost predicate HeldSafely(t: Trace, guard: Guard) {
    Held(t) != [] ==>
      guard != Refuse && (guard == Unvetted ==> forall m :: m in Held(t) ==> DELIVERY_COUNT !in m.headers)
  }

  ghost predicate UnsafeBecause(t: Trace, guard: Guard) {
    guard == Refuse || (guard == Unvetted && t.fetched != [] && DELIVERY_COUNT in Final(t.fetched).headers)
  }

  ghost predicate GuardedExit(exit: Exit, t: Trace, guard: Guard) {
    && (exit.Returned? ==> HeldSafely(t, guard))
    && (exit == Raised(UnsafeToBrowse) ==> UnsafeBecause(t, guard))
  }

  ghost predicate Guarded(p: Progress, t: Trace, guard: Guard, env: Env) {
    && (p.error == None ==>
          Fits(p.vetted, guard, env.filter) && (Held(t) != [] ==> p.vetted.Some?) && HeldSafely(t, guard))
    && (p.error == Some(UnsafeToBrowse) ==> UnsafeBecause(t, guard))
  }

  function One(h: Handled): Tally { match h case Broke(_) => NOTHING case Kept(one) => one case Replayed => REPLAYED }

  function NextProgress(p: Progress, m: Msg, opts: Options, env: Env, guard: Guard): Progress {
    var h := Handle(m, opts, env, p.published, guard, p.vetted);
    Progress(!h.Broke?, if h.Broke? then Some(h.error) else None, p.fetched + 1,
             if Publishes(m, opts, env, p.published, p.vetted) then p.published + 1 else p.published,
             Add(p.tally, One(h)), VettedAfter(m, opts, env, p.published, guard, p.vetted))
  }

  predicate Rejects(filter: Option<Msg -> Verdict>, m: Msg) { filter.Some? && filter.value(m) == NoMatch }

  /** What a message that did not raise adds to the counts. */
  predicate Counts(h: Handled, rejected: bool, spent: bool, bound: bool, sent: seq<Attempt>) {
    && Total(One(h)) == 1 && One(h).replayed == (if h == Replayed then 1 else 0)
    && One(h).requeued == (if rejected then 1 else 0) && One(h).refused == (if !rejected && spent then 1 else 0)
    && One(h).skipped == (if !rejected && !spent && bound then 1 else 0)
    && One(h).failed == (if sent != [] && sent[0].answer == Declined then 1 else 0)
    && (sent != [] <==> !rejected && !spent && !bound)
  }

  /** A decision is the one the rules prescribe. */
  predicate Ruled(d: Decision, rejected: bool, spent: bool, bound: bool) {
    match d
    case Fail(_) => true
    case Send(_) => !rejected && !spent && !bound
    case Leave(tally) =>
      && (rejected || spent || bound)
      && tally == if rejected then NON_MATCHING else if spent then REFUSED else SKIPPED
  }

  lemma DecideFacts(m: Msg, opts: Options, filter: Option<Msg -> Verdict>, now: string)
    ensures Ruled(Decide(m, opts, filter, now), Rejects(filter, m), Spent(m, opts), BoundBack(m, opts))
    ensures match Decide(m, opts, filter, now)
            case Fail(error) =>
              || (error == PredicateRaised && Disturbs(filter, m))
              || (error == CountOverflow && ReplayCount(m.headers) == None)
            case _ => !Disturbs(filter, m)
  {
  }

  lemma OutcomeCounts(d: Decision, m: Msg, env: Env, n: nat, guard: Guard, vetted: Option<bool>, rejected: bool,
                      spent: bool, bound: bool)
    requires Ruled(d, rejected, spent, bound) && !Outcome(d, m, env, n, guard, vetted).Broke?
    ensures Counts(Outcome(d, m, env, n, guard, vetted), rejected, spent, bound,
                   if d.Send? then [Attempt(m, d.envelope, env.publish(n, d.envelope))] else [])
  {
  }

  lemma RefusalsAdd(attempts: seq<Attempt>, sent: seq<Attempt>)
    requires |sent| <= 1
    ensures Refusals(attempts + sent) == Refusals(attempts) + if sent != [] && sent[0].answer == Declined then 1 else 0
  {
    if sent == [] { assert attempts + sent == attempts; } else { assert Prefix(attempts + sent) == attempts; }
  }

  lemma MessageAdds(ms: seq<Msg>, m: Msg, opts: Options, filter: Option<Msg -> Verdict>)
    ensures NotMatching(ms + [m], filter) == NotMatching(ms, filter) + if Rejects(filter, m) then 1 else 0
    ensures Exhausted(ms + [m], opts, filter) ==
            Exhausted(ms, opts, filter) + if !Rejects(filter, m) && Spent(m, opts) then 1 else 0
    ensures Bouncing(ms + [m], opts, filter) ==
            Bouncing(ms, opts, filter) +
            if !Rejects(filter, m) && !Spent(m, opts) && BoundBack(m, opts) then 1 else 0
  {
    Snoc(ms, m);
  }

  lemma CountsAdd(tally: Tally, t: Trace, m: Msg, h: Handled, sent: seq<Attempt>, opts: Options, env: Env)
    requires Exact(tally, t, opts, env) && |sent| <= 1 && !h.Broke?
    requires Counts(h, Rejects(env.filter, m), Spent(m, opts), BoundBack(m, opts), sent)
    ensures Exact(Add(tally, One(h)), After(t, m, sent, h == Replayed), opts, env)
  {
    MessageAdds(t.fetched, m, opts, env.filter);
    RefusalsAdd(t.attempts, sent);
  }

  /** The trace of attempts follows the trace of reads. */
  lemma TriesAdd(t: Trace, m: Msg, sent: seq<Attempt>, acks: bool, opts: Options, env: Env, early: bool)
    requires Tried(t, opts, env, false)
    requires |sent| <= 1 && (sent != [] ==> sent[0].original == m && Eligible(m, opts, env.filter))
    requires !early ==> (sent != [] <==> Eligible(m, opts, env.filter))
    ensures Tried(After(t, m, sent, acks), opts, env, early)
  {
    Snoc(t.fetched, m);
    if sent == [] { assert t.attempts + sent == t.attempts; } else { assert Prefix(t.attempts + sent) == t.attempts; }
  }

  /** The reason one message gave for raising. */
  ghost predicate Blamed(error: Error, m: Msg, sent: seq<Attempt>, env: Env, n: nat) {
    match error
    case UnsafeToBrowse => true
    case GetFailed => false
    case PredicateRaised => Disturbs(env.filter, m)
    case CountOverflow => ReplayCount(m.headers) == None
    case PublishRaised => sent != [] && sent[0].answer == Threw
    case AckFailed => sent != [] && sent[0].answer == Accepted && env.ackFails(n)
  }

  ghost predicate Fine(m: Msg, sent: seq<Attempt>, env: Env, n: nat) {
    !Disturbs(env.filter, m) && (sent != [] ==> Landed(sent[0].answer, env, n))
  }

  lemma HandleBlames(m: Msg, opts: Options, env: Env, n: nat, guard: Guard, vetted: Option<bool>)
    ensures match Handle(m, opts, env, n, guard, vetted)
            case Broke(error) => Blamed(error, m, Sent(m, opts, env, n, vetted), env, n)
            case _ => Fine(m, Sent(m, opts, env, n, vetted), env, n)
  {
    DecideFacts(m, opts, env.filter, env.now(n));
  }

  /** What did not raise left everything unhurt, and what did has its reason. */
  lemma HurtAdds(t: Trace, m: Msg, sent: seq<Attempt>, acks: bool, error: Option<Error>, env: Env)
    requires Unhurt(t, env) && |sent| <= 1
    requires if error.Some? then Blamed(error.value, m, sent, env, |t.attempts|) else Fine(m, sent, env, |t.attempts|)
    ensures var t' := After(t, m, sent, acks);
            if error.Some? then Explained(error.value, t', env) else Unhurt(t', env)
  {
    Snoc(t.fetched, m);
    if sent != [] {
      assert t.attempts + sent == t.attempts + [sent[0]];
      Snoc(t.attempts, sent[0]);
    }
  }

  /** Each message that does not raise is counted exactly once, for what became of it, and republished exactly if it
      should be. */
  lemma ServedCounts(p: Progress, m: Msg, t: Trace, opts: Options, env: Env, guard: Guard)
    requires Counted(p, t, opts, env) && p.running
    ensures var h := Handle(m, opts, env, p.published, guard, p.vetted);
            Counted(NextProgress(p, m, opts, env, guard),
                    After(t, m, Sent(m, opts, env, p.published, p.vetted), h == Replayed), opts, env)
  {
    var n := p.published;
    var h, sent := Handle(m, opts, env, n, guard, p.vetted), Sent(m, opts, env, n, p.vetted);
    DecideFacts(m, opts, env.filter, env.now(n));
    if !h.Broke? {
      HandledCounts(m, opts, env, n, guard, p.vetted);
      CountsAdd(p.tally, t, m, h, sent, opts, env);
    }
    HandleBlames(m, opts, env, n, guard, p.vetted);
    TriesAdd(t, m, sent, h == Replayed, opts, env, h.Broke? && BeforeSending(Some(h.error)));
    HurtAdds(t, m, sent, h == Replayed, if h.Broke? then Some(h.error) else None, env);
  }

  lemma ServedGuarded(p: Progress, m: Msg, t: Trace, opts: Options, env: Env, guard: Guard)
    requires Guarded(p, t, guard, env) && p.error == None && p.published == |t.attempts|
    requires m !in t.fetched && m !in t.acked
    ensures var h := Handle(m, opts, env, p.published, guard, p.vetted);
            Guarded(NextProgress(p, m, opts, env, guard),
                    After(t, m, Sent(m, opts, env, p.published, p.vetted), h == Replayed), guard, env)
  {
    var n := p.published;
    var h, sent := Handle(m, opts, env, n, guard, p.vetted), Sent(m, opts, env, n, p.vetted);
    HandleIsGuarded(m, opts, env, n, guard, p.vetted);
    HandledHeld(t, m, sent, h == Replayed);
    Snoc(t.fetched, m);
  }

  lemma HandledCounts(m: Msg, opts: Options, env: Env, n: nat, guard: Guard, vetted: Option<bool>)
    requires !Handle(m, opts, env, n, guard, vetted).Broke?
    ensures Counts(Handle(m, opts, env, n, guard, vetted), Rejects(env.filter, m), Spent(m, opts), BoundBack(m, opts),
                   Sent(m, opts, env, n, vetted))
  {
    DecideFacts(m, opts, env.filter, env.now(n));
    OutcomeCounts(Decide(m, opts, env.filter, env.now(n)), m, env, n, guard, vetted, Rejects(env.filter, m),
                  Spent(m, opts), BoundBack(m, opts));
  }

  /** What every way out of a replay leaves behind. */
  ghost predicate ReplayDone(kind: Kind, r0: seq<Msg>, a0: seq<Msg>, b: Books, t: Trace, opts: Options, env: Env,
                             exit: Exit)
  {
    && t.fetched + t.rest == r0 + t.copies
    && Distinct(t.fetched + t.rest) && Distinct(t.acked) && (InOrder(r0) ==> InOrder(t.fetched + t.rest))
    && b.ready == ReleaseAll(kind, t.rest, Held(t), env.nackFails)
    && b.unacked == Stuck(Held(t), env.nackFails)
    && b.acked == a0 + t.acked && (forall m :: m in t.acked ==> m in t.fetched)
    && Justified(t, opts, env)
    && |t.copies| + |b.pending| <= |t.attempts| && (NothingComesBack(env) ==> t.copies == [])
    && (opts.limit.Some? ==> |t.fetched| <= NonNegative(opts.limit.value))
    && (opts.maxReplays.Some? && (NothingComesBack(env) || HeaderPreserving(env)) ==>
          |t.fetched| <= TotalCost(opts.maxReplays.value, r0))
    && Tried(t, opts, env, exit.Raised? && BeforeSending(Some(exit.error)))
    && (exit.Raised? ==> Explained(exit.error, t, env))
    && (exit.Returned? ==>
          && Exact(exit.tally, t, opts, env) && Unhurt(t, env)
          && (t.rest == [] || (opts.limit.Some? && |t.fetched| == NonNegative(opts.limit.value))))
  }

  /** Why the loop stopped. */
  ghost predicate Stopped(p: Progress, opts: Options, ready: seq<Msg>) {
    && (opts.limit.Some? ==> p.fetched <= NonNegative(opts.limit.value))
    && (p.error == None ==> ready == [] || (opts.limit.Some? && p.fetched == NonNegative(opts.limit.value)))
  }

  ghost function Released(kind: Kind, b: Books, nackFails: Msg -> bool): Books {
    b.(ready := ReleaseAll(kind, b.ready, b.unacked, nackFails), unacked := Stuck(b.unacked, nackFails))
  }

  function ExitOf(p: Progress): Exit { if p.error.Some? then Raised(p.error.value) else Returned(p.tally) }

  /** Releasing what is held completes a replay that has stopped. */
  lemma Finish(kind: Kind, r0: seq<Msg>, a0: seq<Msg>, b: Books, t: Trace, opts: Options, env: Env, p: Progress)
    requires Underway(r0, a0, b, t, opts, env) && Counted(p, t, opts, env) && Stopped(p, opts, b.ready)
    ensures ReplayDone(kind, r0, a0, Released(kind, b, env.nackFails), t.(rest := b.ready), opts, env, ExitOf(p))
  {
  }

  // ---------------------------------------------------------------- the loop, turn by turn

  /** Where a replay has got to. */
  datatype Going = Going(p: Progress, b: Books, t: Trace)

  /** Fetch the next message and handle it, or stop: the fetch raised, or the queue is empty. */
  ghost function Served(g: Going, opts: Options, env: Env, guard: Guard): Going {
    if env.getFails(g.p.fetched) then g.(p := g.p.(running := false, error := Some(GetFailed)))
    else if g.b.ready == [] then g.(p := g.p.(running := false))
    else Going(NextProgress(g.p, g.b.ready[0], opts, env, guard),
               NextBooks(g.b, opts, env, g.p.published, guard, g.p.vetted),
               NextTrace(g.b, g.t, opts, env, guard, g.p.vetted))
  }

  ghost function WithArrivals(g: Going, moves: seq<nat>): Going {
    Going(g.p, Arrived(g.b, moves), Noted(g.b, g.t, moves))
  }

  predicate Continues(p: Progress, opts: Options) {
    p.running && (opts.limit == None || p.fetched < opts.limit.value)
  }

  ghost function TurnOf(g: Going, opts: Options, env: Env, guard: Guard): Going {
    Served(WithArrivals(g, env.arrivals(g.p.fetched)), opts, env, guard)
  }

  ghost function Turns(g: Going, n: nat, opts: Options, env: Env, guard: Guard): Going {
    if n == 0 then g
    else
      var before := Turns(g, n - 1, opts, env, guard);
      if Continues(before.p, opts) then TurnOf(before, opts, env, guard) else before
  }

  lemma {:induction false} TurnsKeep(keeps: Going -> bool, g: Going, n: nat, opts: Options, env: Env, guard: Guard)
    requires keeps(g)
    requires forall x: Going :: keeps(x) && Continues(x.p, opts) ==> keeps(TurnOf(x, opts, env, guard))
    ensures keeps(Turns(g, n, opts, env, guard))
  {
    if n > 0 { TurnsKeep(keeps, g, n - 1, opts, env, guard); }
  }

  /** Neither past its limit nor stopped short. */
  ghost predicate Bounded(g: Going, opts: Options) {
    && (opts.limit.Some? ==> g.p.fetched <= NonNegative(opts.limit.value))
    && (!g.p.running && g.p.error == None ==> g.b.ready == [])
  }

  ghost predicate Sound(g: Going, r0: seq<Msg>, a0: seq<Msg>, opts: Options, env: Env, guard: Guard) {
    && Underway(r0, a0, g.b, g.t, opts, env) && Counted(g.p, g.t, opts, env) && Guarded(g.p, g.t, guard, env)
    && Bounded(g, opts)
  }

  lemma CountedStays(p: Progress, t: Trace, t': Trace, opts: Options, env: Env)
    requires Counted(p, t, opts, env)
    requires t'.fetched == t.fetched && t'.attempts == t.attempts && t'.acked == t.acked
    ensures Counted(p, t', opts, env)
  {
  }

  lemma GuardedStays(p: Progress, t: Trace, t': Trace, env: Env, guard: Guard)
    requires Guarded(p, t, guard, env) && t'.fetched == t.fetched && t'.acked == t.acked
    ensures Guarded(p, t', guard, env)
  {
    assert Gone(t') == Gone(t);
  }

  lemma ArrivalsSound(g: Going, r0: seq<Msg>, a0: seq<Msg>, opts: Options, env: Env, guard: Guard, moves: seq<nat>)
    requires Sound(g, r0, a0, opts, env, guard) && g.p.running
    ensures Sound(WithArrivals(g, moves), r0, a0, opts, env, guard)
  {
    ArrivalsKeep(r0, a0, g.b, g.t, opts, env, moves);
    ArrivalsSpare(g.b, g.t, moves, 0);
    CountedStays(g.p, g.t, Noted(g.b, g.t, moves), opts, env);
    GuardedStays(g.p, g.t, Noted(g.b, g.t, moves), env, guard);
  }

  lemma ServedSound(g: Going, r0: seq<Msg>, a0: seq<Msg>, opts: Options, env: Env, guard: Guard)
    requires Sound(g, r0, a0, opts, env, guard) && Continues(g.p, opts)
    ensures Sound(Served(g, opts, env, guard), r0, a0, opts, env, guard)
  {
    if !env.getFails(g.p.fetched) && g.b.ready != [] {
      HandledKeeps(r0, a0, g.b, g.t, opts, env, guard, g.p.vetted);
      FetchKeeps(r0, a0, g.b, g.t, opts, env);
      ServedCounts(g.p, g.b.ready[0], g.t, opts, env, guard);
      ServedGuarded(g.p, g.b.ready[0], g.t, opts, env, guard);
    }
  }

  lemma TurnSound(g: Going, r0: seq<Msg>, a0: seq<Msg>, opts: Options, env: Env, guard: Guard)
    requires Sound(g, r0, a0, opts, env, guard) && Continues(g.p, opts)
    ensures Sound(TurnOf(g, opts, env, guard), r0, a0, opts, env, guard)
  {
    ArrivalsSound(g, r0, a0, opts, env, guard, env.arrivals(g.p.fetched));
    ServedSound(WithArrivals(g, env.arrivals(g.p.fetched)), r0, a0, opts, env, guard);
  }

  lemma TurnsSound(g: Going, n: nat, r0: seq<Msg>, a0: seq<Msg>, opts: Options, env: Env, guard: Guard)
    requires Sound(g, r0, a0, opts, env, guard)
    ensures Sound(Turns(g, n, opts, env, guard), r0, a0, opts, env, guard)
  {
    var keeps := x => Sound(x, r0, a0, opts, env, guard);
    forall x: Going | keeps(x) && Continues(x.p, opts) ensures keeps(TurnOf(x, opts, env, guard)) {
      TurnSound(x, r0, a0, opts, env, guard);
    }
    TurnsKeep(keeps, g, n, opts, env, guard);
  }

  /** A replay that has read nothing yet. */
  ghost function Start(r0: seq<Msg>, a0: seq<Msg>, nextPos: nat, vetted: Option<bool>): Going {
    Going(Progress(true, None, 0, 0, NOTHING, vetted), Books(r0, [], a0, [], nextPos), Trace([], [], [], r0, []))
  }

  lemma StartCounted(p: Progress, t: Trace, opts: Options, env: Env)
    requires p.error == None && p.fetched == p.published == 0 && p.tally == NOTHING
    requires t.fetched == [] && t.acked == [] && t.attempts == []
    ensures Counted(p, t, opts, env)
  {
  }

  lemma StartGuarded(p: Progress, t: Trace, guard: Guard, env: Env)
    requires p.error == None && Fits(p.vetted, guard, env.filter) && t.fetched == []
    ensures Guarded(p, t, guard, env)
  {
  }

  lemma StartSound(g: Going, r0: seq<Msg>, a0: seq<Msg>, opts: Options, env: Env, guard: Guard)
    requires Numbered(r0, g.b.nextPos) && Fits(g.p.vetted, guard, env.filter)
    requires g == Start(r0, a0, g.b.nextPos, g.p.vetted)
    ensures Sound(g, r0, a0, opts, env, guard)
  {
    UnderwayStart(r0, a0, g.b, g.t, opts, env);
    StartCounted(g.p, g.t, opts, env);
    StartGuarded(g.p, g.t, guard, env);
  }

  /** The replay can have got here. */
  ghost predicate Arises(g: Going, r0: seq<Msg>, a0: seq<Msg>, nextPos: nat, vetted: Option<bool>, opts: Options,
                          env: Env, guard: Guard)
  {
    exists n: nat :: g == Turns(Start(r0, a0, nextPos, vetted), n, opts, env, guard)
  }

  lemma ArisesSound(g: Going, r0: seq<Msg>, a0: seq<Msg>, nextPos: nat, vetted: Option<bool>, opts: Options,
                     env: Env, guard: Guard)
    requires Numbered(r0, nextPos) && Fits(vetted, guard, env.filter)
    requires Arises(g, r0, a0, nextPos, vetted, opts, env, guard)
    ensures Sound(g, r0, a0, opts, env, guard)
  {
    var n: nat :| g == Turns(Start(r0, a0, nextPos, vetted), n, opts, env, guard);
    StartSound(Start(r0, a0, nextPos, vetted), r0, a0, opts, env, guard);
    TurnsSound(Start(r0, a0, nextPos, vetted), n, r0, a0, opts, env, guard);
  }

  lemma ArisesFirst(r0: seq<Msg>, a0: seq<Msg>, nextPos: nat, vetted: Option<bool>, opts: Options, env: Env,
                     guard: Guard)
    ensures Arises(Start(r0, a0, nextPos, vetted), r0, a0, nextPos, vetted, opts, env, guard)
  {
    assert Start(r0, a0, nextPos, vetted) == Turns(Start(r0, a0, nextPos, vetted), 0, opts, env, guard);
  }

  lemma ArisesNext(g: Going, r0: seq<Msg>, a0: seq<Msg>, nextPos: nat, vetted: Option<bool>, opts: Options,
                    env: Env, guard: Guard)
    requires Arises(g, r0, a0, nextPos, vetted, opts, env, guard) && Continues(g.p, opts)
    ensures Arises(TurnOf(g, opts, env, guard), r0, a0, nextPos, vetted, opts, env, guard)
  {
    var n: nat :| g == Turns(Start(r0, a0, nextPos, vetted), n, opts, env, guard);
    assert TurnOf(g, opts, env, guard) == Turns(Start(r0, a0, nextPos, vetted), n + 1, opts, env, guard);
  }

  /** Every turn that does not stop the loop brings its end nearer. */
  lemma TurnDrops(g: Going, r0: seq<Msg>, a0: seq<Msg>, opts: Options, env: Env, guard: Guard)
    requires Sound(g, r0, a0, opts, env, guard) && Continues(g.p, opts) && Ends(opts, env)
    ensures var g' := TurnOf(g, opts, env, guard);
            && Fits(g.p.vetted, guard, env.filter)
            && (g'.p.running ==>
                  g'.p.error == None && LoopMeasure(opts, g'.b, g'.p.fetched) < LoopMeasure(opts, g.b, g.p.fetched))
  {
    var moves := env.arrivals(g.p.fetched);
    MeasureStays(opts, env, g.b, g.t, moves, g.p.fetched);
    var b := Arrived(g.b, moves);
    if !env.getFails(g.p.fetched) && b.ready != [] {
      MeasureDrops(opts, env, b, g.p.published, guard, g.p.vetted, g.p.fetched);
    }
  }

  lemma TurnAdvances(g: Going, g': Going, r0: seq<Msg>, a0: seq<Msg>, nextPos: nat, vetted: Option<bool>,
                     opts: Options, env: Env, guard: Guard)
    requires Numbered(r0, nextPos) && Fits(vetted, guard, env.filter) && Ends(opts, env) && Continues(g.p, opts)
    requires Arises(g, r0, a0, nextPos, vetted, opts, env, guard) && g' == TurnOf(g, opts, env, guard)
    ensures Arises(g', r0, a0, nextPos, vetted, opts, env, guard) && Fits(g.p.vetted, guard, env.filter)
    ensures g'.p.error == Some(UnsafeToBrowse) ==> !guard.Vetted?
    ensures g'.p.running ==>
              g'.p.error == None && LoopMeasure(opts, g'.b, g'.p.fetched) < LoopMeasure(opts, g.b, g.p.fetched)
  {
    ArisesNext(g, r0, a0, nextPos, vetted, opts, env, guard);
    ArisesSound(g, r0, a0, nextPos, vetted, opts, env, guard);
    TurnDrops(g, r0, a0, opts, env, guard);
    NeverUnsafe(g', r0, a0, nextPos, vetted, opts, env, guard);
  }

  lemma NeverUnsafe(g: Going, r0: seq<Msg>, a0: seq<Msg>, nextPos: nat, vetted: Option<bool>, opts: Options, env: Env,
                    guard: Guard)
    requires Numbered(r0, nextPos) && Fits(vetted, guard, env.filter)
    requires Arises(g, r0, a0, nextPos, vetted, opts, env, guard)
    ensures g.p.error == Some(UnsafeToBrowse) ==> !guard.Vetted?
  {
    ArisesSound(g, r0, a0, nextPos, vetted, opts, env, guard);
  }

  lemma Stops(g: Going, r0: seq<Msg>, a0: seq<Msg>, opts: Options, env: Env, guard: Guard)
    requires Sound(g, r0, a0, opts, env, guard) && !Continues(g.p, opts)
    ensures Stopped(g.p, opts, g.b.ready)
  {
  }

  /** A replay that has stopped, once what it held is released. */
  lemma Completed(kind: Kind, g: Going, r0: seq<Msg>, a0: seq<Msg>, nextPos: nat, vetted: Option<bool>, opts: Options,
                  env: Env, guard: Guard)
    requires Numbered(r0, nextPos) && Fits(vetted, guard, env.filter) && !Continues(g.p, opts)
    requires Arises(g, r0, a0, nextPos, vetted, opts, env, guard)
    ensures ReplayDone(kind, r0, a0, Released(kind, g.b, env.nackFails), g.t.(rest := g.b.ready), opts, env,
                       ExitOf(g.p))
  {
    ArisesSound(g, r0, a0, nextPos, vetted, opts, env, guard);
    Stops(g, r0, a0, opts, env, guard);
    Finish(kind, r0, a0, g.b, g.t, opts, env, g.p);
  }

  lemma CompletedSafely(g: Going, r0: seq<Msg>, a0: seq<Msg>, nextPos: nat, vetted: Option<bool>, opts: Options,
                        env: Env, guard: Guard)
    requires Numbered(r0, nextPos) && Fits(vetted, guard, env.filter)
    requires Arises(g, r0, a0, nextPos, vetted, opts, env, guard)
    ensures GuardedExit(ExitOf(g.p), g.t.(rest := g.b.ready), guard)
  {
    ArisesSound(g, r0, a0, nextPos, vetted, opts, env, guard);
    GuardedStays(g.p, g.t, g.t.(rest := g.b.ready), env, guard);
  }

  /** ... and one that is refused before it reads anything has nothing to release. */
  lemma RefusedAtOnce(kind: Kind, r0: seq<Msg>, a0: seq<Msg>, nextPos: nat, opts: Options, env: Env)
    requires Numbered(r0, nextPos)
    ensures ReplayDone(kind, r0, a0, Books(r0, [], a0, [], nextPos), Trace([], [], [], r0, []), opts, env,
                       Raised(UnsafeToBrowse))
  {
    var b, t := Books(r0, [], a0, [], nextPos), Trace([], [], [], r0, []);
    UnderwayStart(r0, a0, b, t, opts, env);
    Finish(kind, r0, a0, b, t, opts, env, Progress(false, Some(UnsafeToBrowse), 0, 0, NOTHING, None));
    assert Released(kind, b, env.nackFails) == b;
  }

  // ---------------------------------------------------------------- peeking

  /** `messages[:limit]`, where a negative limit counts from the end. */
  function Slice(ms: seq<Msg>, limit: int): seq<Msg> {
    if limit >= 0 then ms[..Min(limit, |ms|)] else ms[..NonNegative(|ms| + limit)]
  }

  /** Whether the queue is read whole, given how it was last vetted. */
  function ReadWhole(guard: Guard, before: bool): bool {
    if guard.Vetted? && guard.whole.Some? then guard.whole.value else before
  }

  /** The queue was vetted only now, because a message had to be kept. */
  predicate Vets(h: Handled, vetted: Option<bool>) {
    vetted == None && (h == Broke(UnsafeToBrowse) || (h.Kept? && h.tally != NON_MATCHING))
  }

  /** Which queues are read whole, once this one has been vetted. */
  function WholeAfter(guard: Guard, whole: set<string>, queue: string): (r: set<string>)
    ensures queue in r <==> ReadWhole(guard, queue in whole)
    ensures r - {queue} == whole - {queue}
  {
    if guard.Vetted? && guard.whole.Some? then if guard.whole.value then whole + {queue} else whole - {queue}
    else whole
  }

  /** One past the scan limit: a whole read must see the queue's end. */
  function FetchLimit(entire: bool, limit: int, maxScan: nat): nat {
    if entire then maxScan + 1 else NonNegative(limit)
  }

  /** A fetch that fails or a message that trips the wire, within what would be read. */
  ghost predicate Spoilt(ready: seq<Msg>, n: nat, getFails: nat -> bool, vetted: bool) {
    || (exists k: nat :: k < n && k <= |ready| && getFails(k))
    || (exists k: nat :: k < n && k < |ready| && Trips(ready[k], vetted))
  }

  ghost predicate PeekSucceeds(ready: seq<Msg>, guard: Guard, entire: bool, n: nat, maxScan: nat,
                               getFails: nat -> bool)
  {
    && guard != Refuse && !Spoilt(ready, n, getFails, guard.Vetted?)
    && (entire ==> |ready| <= maxScan)
  }

  class Inspector {
    const checkLimit: bool
    const maxScan: nat
    var whole: set<string>
    var knownQuorum: set<string>

    constructor (checkLimit: bool, maxScan: nat)
      ensures this.checkLimit == checkLimit && this.maxScan == maxScan && whole == {} && knownQuorum == {}
    {
      this.checkLimit, this.maxScan := checkLimit, maxScan;
      whole, knownQuorum := {}, {};
    }

    method Ensure(queue: string, lookup: Lookup) returns (vetted: Option<bool>)
      modifies this`whole
      ensures var guard := EnsureBrowsable(checkLimit, queue in knownQuorum, lookup, maxScan);
              && vetted == (match guard case Refuse => None case Unvetted => Some(false) case Vetted(_) => Some(true))
              && whole == WholeAfter(guard, old(whole), queue)
    {
      if !checkLimit { return Some(true); }
      if queue in knownQuorum { return None; }
      match lookup
      case NoClient => return Some(false);
      case Broken => return None;
      case Missing => return Some(false);
      case Found(info, version) =>
        if version.Unreadable? || !Browsable(info, version.major) { return None; }
        if info.quorum {
          if info.ready > maxScan { return None; }
          whole := whole + {queue};
        } else {
          whole := whole - {queue};
        }
        return Some(true);
    }

    /** True if the message proves the queue is a quorum queue that could not be vetted. */
    method Tripwire(queue: string, m: Msg, vetted: bool) returns (trips: bool)
      modifies this`knownQuorum
      ensures trips <==> Trips(m, vetted)
      ensures knownQuorum == if trips then old(knownQuorum) + {queue} else old(knownQuorum)
    {
      trips := !vetted && DELIVERY_COUNT in m.headers;
      if trips { knownQuorum := knownQuorum + {queue}; }
    }

    method VetRequeue(queue: string, m: Msg, vetted: Option<bool>, lookup: Lookup) returns (r: Option<bool>)
      modifies this`whole, this`knownQuorum
      ensures r == LateVet(EnsureBrowsable(checkLimit, queue in old(knownQuorum), lookup, maxScan), vetted, m)
      ensures var guard := EnsureBrowsable(checkLimit, queue in old(knownQuorum), lookup, maxScan);
              knownQuorum ==
              if r == None && (vetted.Some? || guard != Refuse) then old(knownQuorum) + {queue} else old(knownQuorum)
      ensures whole == if vetted.Some? then old(whole) else
                WholeAfter(EnsureBrowsable(checkLimit, queue in old(knownQuorum), lookup, maxScan), old(whole), queue)
    {
      r := vetted;
      if r == None {
        r := Ensure(queue, lookup);
        if r == None { return; }
      }
      var trips := Tripwire(queue, m, r.value);
      if trips { r := None; }
    }

    /** Everything between fetching a message and going back for the next. */
    method HandleOne(q: DlqQueue, opts: Options, env: Env, lookup: Lookup, m: Msg, n: nat, vetted: Option<bool>)
      returns (h: Handled, vetted': Option<bool>)
      requires q.unacked != [] && q.unacked[|q.unacked| - 1] == m
      modifies this`whole, this`knownQuorum, q`unacked, q`acked, q`pending
      ensures var guard := EnsureBrowsable(checkLimit, opts.queue in old(knownQuorum), lookup, maxScan);
              && h == Handle(m, opts, env, n, guard, vetted)
              && vetted' == VettedAfter(m, opts, env, n, guard, vetted)
              && knownQuorum == (if h == Broke(UnsafeToBrowse) && (vetted.Some? || guard != Refuse)
                                 then old(knownQuorum) + {opts.queue} else old(knownQuorum))
              && whole == if Vets(h, vetted) then WholeAfter(guard, old(whole), opts.queue) else old(whole)
      ensures q.pending == old(q.pending) + Copy(m, opts, env, n, vetted)
      ensures if h == Replayed then q.unacked == old(q.unacked)[..|old(q.unacked)| - 1] && q.acked == old(q.acked) + [m]
              else q.unacked == old(q.unacked) && q.acked == old(q.acked)
    {
      if vetted.Some? {
        var trips := Tripwire(opts.queue, m, vetted.value);
        if trips { return Broke(UnsafeToBrowse), vetted; }
      }
      h, vetted' := Act(q, opts.queue, env, lookup, m, n, Decide(m, opts, env.filter, env.now(n)), vetted);
    }

    /** What has been decided about a message is done. */
    method Act(q: DlqQueue, queue: string, env: Env, lookup: Lookup, m: Msg, n: nat, d: Decision, vetted: Option<bool>)
      returns (h: Handled, vetted': Option<bool>)
      requires q.unacked != [] && q.unacked[|q.unacked| - 1] == m
      modifies this`whole, this`knownQuorum, q`unacked, q`acked, q`pending
      ensures var guard := EnsureBrowsable(checkLimit, queue in old(knownQuorum), lookup, maxScan);
              && h == Outcome(d, m, env, n, guard, vetted) && vetted' == Carried(d, m, env, n, guard, vetted)
              && (d.Fail? ==> knownQuorum == old(knownQuorum) && whole == old(whole))
              && (!d.Fail? ==>
                    && knownQuorum == (if h == Broke(UnsafeToBrowse) && (vetted.Some? || guard != Refuse)
                                       then old(knownQuorum) + {queue} else old(knownQuorum))
                    && whole == if Vets(h, vetted) then WholeAfter(guard, old(whole), queue) else old(whole))
      ensures q.pending == old(q.pending) +
                if d.Send? && env.comesBack(n, d.envelope).Some? then [env.comesBack(n, d.envelope).value] else []
      ensures if h == Replayed then q.unacked == old(q.unacked)[..|old(q.unacked)| - 1] && q.acked == old(q.acked) + [m]
              else q.unacked == old(q.unacked) && q.acked == old(q.acked)
    {
      vetted' := vetted;
      match d
      case Fail(error) => h := Broke(error);
      case Leave(tally) =>
        if tally == NON_MATCHING { return Kept(tally), vetted; }
        h, vetted' := Keep(queue, m, vetted, lookup, tally);
      case Send(e) =>
        match env.comesBack(n, e) {
          case Some(back) => q.pending := q.pending + [back];
          case None =>
        }
        match env.publish(n, e)
        case Threw => h := Broke(PublishRaised);
        case Declined => h, vetted' := Keep(queue, m, vetted, lookup, FAILED);
        case Accepted =>
          if env.ackFails(n) { return Broke(AckFailed), vetted; }
          q.AckLast();
          h := Replayed;
    }

    /** A message may be kept for requeueing only if the queue is, or now turns out to be, safe to browse. */
    method Keep(queue: string, m: Msg, vetted: Option<bool>, lookup: Lookup, tally: Tally)
      returns (h: Handled, vetted': Option<bool>)
      modifies this`whole, this`knownQuorum
      ensures var guard := EnsureBrowsable(checkLimit, queue in old(knownQuorum), lookup, maxScan);
              var late := LateVet(guard, vetted, m);
              && h == (if late == None then Broke(UnsafeToBrowse) else Kept(tally))
              && vetted' == (if late == None then vetted else late)
              && knownQuorum == (if late == None && (vetted.Some? || guard != Refuse)
                                 then old(knownQuorum) + {queue} else old(knownQuorum))
              && whole == if vetted.Some? then old(whole) else WholeAfter(guard, old(whole), queue)
    {
      var late := VetRequeue(queue, m, vetted, lookup);
      if late == None { return Broke(UnsafeToBrowse), vetted; }
      return Kept(tally), late;
    }

    /** Fetch a message and handle it, or stop. */
    method Serve(q: DlqQueue, opts: Options, env: Env, lookup: Lookup, p: Progress, ghost t: Trace, ghost guard: Guard)
      returns (p': Progress, ghost t': Trace)
      requires guard == EnsureBrowsable(checkLimit, opts.queue in knownQuorum, lookup, maxScan) && p.error == None
      modifies this`whole, this`knownQuorum, q`ready, q`unacked, q`acked, q`pending, q`nextPos
      ensures Going(p', q.Now(), t') == Served(Going(p, old(q.Now()), t), opts, env, guard)
      ensures knownQuorum == if p'.error == Some(UnsafeToBrowse) && (p.vetted.Some? || guard != Refuse)
                             then old(knownQuorum) + {opts.queue} else old(knownQuorum)
    {
      t' := Served(Going(p, q.Now(), t), opts, env, guard).t;
      var got := q.Get(env.getFails(p.fetched));
      if got == None {
        p' := p.(running := false, error := if env.getFails(p.fetched) then Some(GetFailed) else p.error);
        return;
      }
      var h, vetted := HandleOne(q, opts, env, lookup, got.value, p.published, p.vetted);
      p' := Progress(!h.Broke?, if h.Broke? then Some(h.error) else None, p.fetched + 1,
                     if Publishes(got.value, opts, env, p.published, p.vetted) then p.published + 1 else p.published,
                     Add(p.tally, One(h)), vetted);
    }

    /** One turn of the loop, after whatever arrived before it. */
    method Turn(q: DlqQueue, opts: Options, env: Env, lookup: Lookup, p: Progress, ghost t: Trace, ghost guard: Guard)
      returns (p': Progress, ghost t': Trace)
      requires guard == EnsureBrowsable(checkLimit, opts.queue in knownQuorum, lookup, maxScan) && p.error == None
      modifies this`whole, this`knownQuorum, q`ready, q`unacked, q`acked, q`pending, q`nextPos
      ensures Going(p', q.Now(), t') == TurnOf(Going(p, old(q.Now()), t), opts, env, guard)
      ensures knownQuorum == if p'.error == Some(UnsafeToBrowse) && (p.vetted.Some? || guard != Refuse)
                             then old(knownQuorum) + {opts.queue} else old(knownQuorum)
    {
      ghost var b := q.Now();
      q.Arrive(env.arrivals(p.fetched));
      p', t' := Serve(q, opts, env, lookup, p, Noted(b, t, env.arrivals(p.fetched)), guard);
    }

    method NextTurn(q: DlqQueue, opts: Options, env: Env, lookup: Lookup, p: Progress, ghost t: Trace,
                    ghost guard: Guard, ghost r0: seq<Msg>, ghost a0: seq<Msg>, ghost nextPos: nat,
                    ghost vetted: Option<bool>)
      returns (p': Progress, ghost t': Trace)
      requires guard == EnsureBrowsable(checkLimit, opts.queue in knownQuorum, lookup, maxScan) && p.error == None
      requires Numbered(r0, nextPos) && Fits(vetted, guard, env.filter) && Ends(opts, env) && Continues(p, opts)
      requires Arises(Going(p, q.Now(), t), r0, a0, nextPos, vetted, opts, env, guard)
      modifies this`whole, this`knownQuorum, q`ready, q`unacked, q`acked, q`pending, q`nextPos
      ensures Arises(Going(p', q.Now(), t'), r0, a0, nextPos, vetted, opts, env, guard)
      ensures p'.running ==>
                p'.error == None && LoopMeasure(opts, q.Now(), p'.fetched) < LoopMeasure(opts, old(q.Now()), p.fetched)
      ensures knownQuorum == if p'.error == Some(UnsafeToBrowse) && guard == Unvetted
                             then old(knownQuorum) + {opts.queue} else old(knownQuorum)
    {
      ghost var g := Going(p, q.Now(), t);
      p', t' := Turn(q, opts, env, lookup, p, t, guard);
      TurnAdvances(g, Going(p', q.Now(), t'), r0, a0, nextPos, vetted, opts, env, guard);
    }

    /** Turns until the queue is empty, the limit is reached or something raises. */
    method Loop(q: DlqQueue, opts: Options, env: Env, lookup: Lookup, vetted: Option<bool>, ghost guard: Guard)
      returns (p: Progress, ghost t: Trace)
      requires guard == EnsureBrowsable(checkLimit, opts.queue in knownQuorum, lookup, maxScan)
      requires Numbered(q.ready, q.nextPos) && q.unacked == [] && q.pending == [] && Ends(opts, env)
      requires Fits(vetted, guard, env.filter)
      modifies this`whole, this`knownQuorum, q`ready, q`unacked, q`acked, q`pending, q`nextPos
      ensures Arises(Going(p, q.Now(), t), old(q.ready), old(q.acked), old(q.nextPos), vetted, opts, env, guard)
      ensures !Continues(p, opts)
      ensures knownQuorum == if p.error == Some(UnsafeToBrowse) && guard == Unvetted
                             then old(knownQuorum) + {opts.queue} else old(knownQuorum)
    {
      ghost var r0, a0, nextPos := q.ready, q.acked, q.nextPos;
      p, t := Progress(true, None, 0, 0, NOTHING, vetted), Trace([], [], [], q.ready, []);
      ArisesFirst(r0, a0, nextPos, vetted, opts, env, guard);
      while p.running && (opts.limit == None || p.fetched < opts.limit.value)
        invariant Arises(Going(p, q.Now(), t), r0, a0, nextPos, vetted, opts, env, guard)
        invariant p.running ==> p.error == None
        invariant knownQuorum == if p.error == Some(UnsafeToBrowse) && guard == Unvetted
                                 then old(knownQuorum) + {opts.queue} else old(knownQuorum)
        decreases p.running, LoopMeasure(opts, q.Now(), p.fetched)
      {
        p, t := NextTurn(q, opts, env, lookup, p, t, guard, r0, a0, nextPos, vetted);
      }
    }

    /** The loop, and the release of what is still held, however it stopped. */
    method LoopThenRelease(q: DlqQueue, opts: Options, env: Env, lookup: Lookup, vetted: Option<bool>,
                           ghost guard: Guard)
      returns (exit: Exit, ghost t: Trace)
      requires guard == EnsureBrowsable(checkLimit, opts.queue in knownQuorum, lookup, maxScan)
      requires Numbered(q.ready, q.nextPos) && q.unacked == [] && q.pending == [] && Ends(opts, env)
      requires Fits(vetted, guard, env.filter)
      modifies this`whole, this`knownQuorum, q`ready, q`unacked, q`acked, q`pending, q`nextPos
      ensures ReplayDone(q.kind, old(q.ready), old(q.acked), q.Now(), t, opts, env, exit)
      ensures GuardedExit(exit, t, guard)
      ensures knownQuorum == if exit == Raised(UnsafeToBrowse) && guard == Unvetted
                             then old(knownQuorum) + {opts.queue} else old(knownQuorum)
    {
      var p;
      p, t := Loop(q, opts, env, lookup, vetted, guard);
      ghost var g := Going(p, q.Now(), t);
      Completed(q.kind, g, old(q.ready), old(q.acked), old(q.nextPos), vetted, opts, env, guard);
      CompletedSafely(g, old(q.ready), old(q.acked), old(q.nextPos), vetted, opts, env, guard);
      t := t.(rest := q.ready);
      q.ReleaseHeld(env.nackFails);
      exit := ExitOf(p);
    }

    /** A filtered replay is vetted before it reads anything. */
    method Replay(q: DlqQueue, opts: Options, env: Env, lookup: Lookup) returns (exit: Exit, ghost t: Trace)
      requires Numbered(q.ready, q.nextPos) && q.unacked == [] && q.pending == [] && Ends(opts, env)
      modifies this`whole, this`knownQuorum, q`ready, q`unacked, q`acked, q`pending, q`nextPos
      ensures ReplayDone(q.kind, old(q.ready), old(q.acked), q.Now(), t, opts, env, exit)
      ensures var guard := EnsureBrowsable(checkLimit, opts.queue in old(knownQuorum), lookup, maxScan);
              var refused := env.filter.Some? &&
                             (guard == Refuse || (opts.limit.Some? && ReadWhole(guard, opts.queue in old(whole))));
              && (if refused then exit == Raised(UnsafeToBrowse) && t.fetched == [] else GuardedExit(exit, t, guard))
              && knownQuorum == if !refused && exit == Raised(UnsafeToBrowse) && guard == Unvetted
                                then old(knownQuorum) + {opts.queue} else old(knownQuorum)
    {
      ghost var guard := EnsureBrowsable(checkLimit, opts.queue in knownQuorum, lookup, maxScan);
      var vetted := None;
      if env.filter.Some? {
        vetted := Ensure(opts.queue, lookup);
        if vetted == None || (opts.queue in whole && opts.limit.Some?) {
          RefusedAtOnce(q.kind, q.ready, q.acked, q.nextPos, opts, env);
          return Raised(UnsafeToBrowse), Trace([], [], [], q.ready, []);
        }
      }
      exit, t := LoopThenRelease(q, opts, env, lookup, vetted, guard);
    }

    /** The fetch loop of a peek: what it read, which it holds, and whether nothing spoilt it. */
    method ReadAhead(q: DlqQueue, queue: string, n: nat, getFails: nat -> bool, vetted: bool)
      returns (messages: seq<Msg>, ok: bool)
      requires q.unacked == []
      modifies this`knownQuorum, q`ready, q`unacked
      ensures |messages| <= |old(q.ready)| && messages == q.unacked == old(q.ready)[..|messages|]
              && q.ready == old(q.ready)[|messages|..]
      ensures ok <==> !Spoilt(old(q.ready), n, getFails, vetted)
      ensures |messages| <= n && (ok ==> |messages| == Min(|old(q.ready)|, n))
    {
      ghost var r0 := q.ready;
      var stopped := false;
      messages, ok := [], true;
      while |messages| < n && ok && !stopped
        invariant |messages| <= |r0| && |messages| <= n
        invariant messages == q.unacked == r0[..|messages|] && q.ready == r0[|messages|..]
        invariant stopped ==> ok && |messages| == |r0| && !getFails(|r0|) && |r0| < n
        invariant ok ==> forall k :: 0 <= k < |messages| ==> !getFails(k) && !Trips(r0[k], vetted)
        invariant !ok ==> Spoilt(r0, n, getFails, vetted)
        decreases ok, !stopped, n - |messages|
      {
        var got := q.Get(getFails(|messages|));
        if got == None {
          ok, stopped := !getFails(|messages|), !getFails(|messages|);
        } else {
          assert r0[..|messages| + 1] == r0[..|messages|] + [r0[|messages|]];
          messages := messages + [got.value];
          var trips := Tripwire(queue, got.value, vetted);
          ok := !trips;
        }
      }
    }

    /** Read, hold, and put everything back; `read` counts what was read. */
    method Peek(q: DlqQueue, queue: string, limit: int, getFails: nat -> bool, nackFails: Msg -> bool, lookup: Lookup)
      returns (r: Option<seq<Msg>>, ghost read: nat)
      requires q.unacked == []
      modifies this`whole, this`knownQuorum, q`ready, q`unacked
      ensures read <= |old(q.ready)|
      ensures q.ready == ReleaseAll(q.kind, old(q.ready)[read..], old(q.ready)[..read], nackFails)
      ensures q.unacked == Stuck(old(q.ready)[..read], nackFails) && q.acked == old(q.acked)
      ensures var guard := EnsureBrowsable(checkLimit, queue in old(knownQuorum), lookup, maxScan);
              var entire := ReadWhole(guard, queue in old(whole));
              var n := FetchLimit(entire, limit, maxScan);
              && read <= (if entire then maxScan + 1 else NonNegative(limit))
              && (r.Some? <==> PeekSucceeds(old(q.ready), guard, entire, n, maxScan, getFails))
              && (r.Some? ==> read == Min(|old(q.ready)|, n) && r.value == Slice(old(q.ready)[..read], limit))
    {
      assert q.ready[..0] == [] && q.ready[0..] == q.ready;
      var vetted := Ensure(queue, lookup);
      if vetted == None { return None, 0; }
      var entire := queue in whole;
      var messages, ok := ReadAhead(q, queue, FetchLimit(entire, limit, maxScan), getFails, vetted.value);
      read := |messages|;
      q.ReleaseHeld(nackFails);
      r := if ok && !(entire && |messages| > maxScan) then Some(Slice(messages, limit)) else None;
    }
  }
}
