/** What a peek or a replay means for the queue, whichever way it ended. */
module DlqLaws {
  import opened Common
  import opened DlqHeaders
  import opened Dlq
  import opened DlqInspector

  // ---------------------------------------------------------------- conservation

  lemma {:induction false} DistinctCount(ms: seq<Msg>, x: Msg)
    requires Distinct(ms)
    ensures Count(ms, x) == if x in ms then 1 else 0
  {
    if ms != [] {
      var init, last := ms[..|ms| - 1], ms[|ms| - 1];
      assert ms == init + [last];
      assert forall y :: y in init ==> y.pos != last.pos;
      DistinctCount(init, x);
    }
  }

  lemma {:induction false} WithoutDistinct(ms: seq<Msg>, gone: set<Msg>)
    requires Distinct(ms)
    ensures Distinct(Without(ms, gone))
  {
    if ms != [] {
      var init, last := ms[..|ms| - 1], ms[|ms| - 1];
      WithoutDistinct(init, gone);
      WithoutMembers(init, gone);
      forall x | x in Without(init, gone) ensures x.pos != last.pos { assert x in init; }
      if last !in gone { DistinctSnoc(Without(init, gone), last); }
    }
  }

  /** What was read is either acknowledged or still held, never both. */
  lemma HeldOrAcked(t: Trace, x: Msg)
    requires Distinct(t.fetched) && Distinct(t.acked) && forall m :: m in t.acked ==> m in t.fetched
    ensures Count(Held(t), x) + Count(t.acked, x) == Count(t.fetched, x)
  {
    WithoutDistinct(t.fetched, Gone(t));
    WithoutMembers(t.fetched, Gone(t));
    DistinctCount(t.fetched, x);
    DistinctCount(t.acked, x);
    DistinctCount(Held(t), x);
  }

  lemma DistinctFront(a: seq<Msg>, b: seq<Msg>)
    requires Distinct(a + b)
    ensures Distinct(a) && forall m :: m in b ==> m !in a
  {
    forall i, j | 0 <= i < j < |a| ensures a[i].pos != a[j].pos { assert (a + b)[i] == a[i] && (a + b)[j] == a[j]; }
    forall m | m in b ensures m !in a {
      var j :| 0 <= j < |b| && b[j] == m;
      assert (a + b)[|a| + j] == m;
      assert forall i :: 0 <= i < |a| ==> (a + b)[i] == a[i];
    }
  }

  lemma EachConserved(kind: Kind, t: Trace, fails: Msg -> bool, x: Msg)
    requires Distinct(t.fetched + t.rest) && Distinct(t.acked) && forall m :: m in t.acked ==> m in t.fetched
    ensures Count(ReleaseAll(kind, t.rest, Held(t), fails), x) + Count(Stuck(Held(t), fails), x) + Count(t.acked, x) ==
            Count(t.fetched + t.rest, x)
  {
    DistinctFront(t.fetched, t.rest);
    ReleaseCounts(kind, t.rest, Held(t), fails, x);
    HeldOrAcked(t, x);
  }

  /** Nothing is lost and nothing is invented, whichever way a replay ends: each message is ready, or unacknowledged
      because its requeue failed, or was acknowledged; and only copies that came back are new. */
  lemma ReplayConserves(kind: Kind, r0: seq<Msg>, a0: seq<Msg>, b: Books, t: Trace, opts: Options, env: Env, exit: Exit)
    requires ReplayDone(kind, r0, a0, b, t, opts, env, exit)
    ensures multiset(b.ready) + multiset(b.unacked) + multiset(t.acked) == multiset(r0) + multiset(t.copies)
  {
    assert multiset(t.fetched + t.rest) == multiset(r0 + t.copies);
    var after, before := multiset(b.ready) + multiset(b.unacked) + multiset(t.acked), multiset(r0) + multiset(t.copies);
    forall x ensures after[x] == before[x] { EachConserved(kind, t, env.nackFails, x); }
  }

  lemma MustBeAcked(r0: seq<Msg>, copies: seq<Msg>, ready: seq<Msg>, unacked: seq<Msg>, acked: seq<Msg>, m: Msg)
    requires multiset(ready) + multiset(unacked) + multiset(acked) == multiset(r0) + multiset(copies)
    requires m in r0 && m !in ready && m !in unacked
    ensures m in acked
  {
    assert m in multiset(r0);
    assert (multiset(ready) + multiset(unacked) + multiset(acked))[m] == multiset(acked)[m];
    assert m in multiset(acked);
  }

  /** No original leaves the queue without a republish of it that was answered OK, at most one acknowledgement each. */
  lemma AckedWasRepublished(kind: Kind, r0: seq<Msg>, a0: seq<Msg>, b: Books, t: Trace, opts: Options, env: Env,
                            exit: Exit, m: Msg)
    requires ReplayDone(kind, r0, a0, b, t, opts, env, exit) && m in r0 && m !in b.ready && m !in b.unacked
    ensures m in t.acked && Count(t.acked, m) == 1
    ensures exists k :: 0 <= k < |t.attempts| && t.attempts[k].original == m && t.attempts[k].answer == Accepted
                        && Some(t.attempts[k].envelope) == ReplayEnvelope(m, opts, env.now(k))
  {
    ReplayConserves(kind, r0, a0, b, t, opts, env, exit);
    MustBeAcked(r0, t.copies, b.ready, b.unacked, t.acked, m);
    DistinctCount(t.acked, m);
    AckedIsJustified(t, opts, env, m);
  }

  lemma AckedIsJustified(t: Trace, opts: Options, env: Env, m: Msg)
    requires Justified(t, opts, env) && m in t.acked
    ensures exists k :: 0 <= k < |t.attempts| && t.attempts[k].original == m && t.attempts[k].answer == Accepted
                        && Some(t.attempts[k].envelope) == ReplayEnvelope(m, opts, env.now(k))
  {
    assert Republished(t.attempts, m);
    var k :| 0 <= k < |t.attempts| && t.attempts[k].original == m && t.attempts[k].answer == Accepted;
    assert AttemptOk(t.attempts[k], opts, env, k);
  }

  /** Every republish carries the body and the properties of its original, one replay more on its count, is never less
      durable, asks to be returned when it cannot be routed, says when and by whom it was replayed, and does not go back
      into the queue it came from. */
  lemma RepublishIsFaithful(kind: Kind, r0: seq<Msg>, a0: seq<Msg>, b: Books, t: Trace, opts: Options, env: Env,
                            exit: Exit, k: nat)
    requires ReplayDone(kind, r0, a0, b, t, opts, env, exit) && k < |t.attempts|
    ensures Faithful(t.attempts[k].original, t.attempts[k].envelope, opts, env.now(k))
    ensures t.attempts[k].answer == env.publish(k, t.attempts[k].envelope)
  {
    assert AttemptOk(t.attempts[k], opts, env, k);
    EnvelopeIsFaithful(t.attempts[k].original, opts, env.filter, env.now(k));
  }

  predicate Faithful(m: Msg, e: Envelope, opts: Options, now: string) {
    && e.body == m.body && e.mandatory
    && SameProps(m.props, e.props)
    && ReplayCount(m.headers).Some? && ReplayCount(e.headers) == Some(ReplayCount(m.headers).value + 1)
    && Get(e.headers, REPLAYED_AT) == Some(Text(now)) && Get(e.headers, REPLAYED_BY) == Some(Text(opts.actor))
    && (opts.maxReplays.Some? ==> ReplayCount(m.headers).value < opts.maxReplays.value)
    && (!opts.allowSelfReplay ==> e.exchange != "" || e.routingKey != opts.queue)
  }

  /** The same, except that an empty text is left out and only a message marked transient stays so. */
  predicate SameProps(p: Props, q: Props) {
    && q.(messageId := None, contentType := None, deliveryMode := None) ==
       p.(messageId := None, contentType := None, deliveryMode := None)
    && q.messageId != Some("") && (p.messageId != Some("") ==> q.messageId == p.messageId)
    && q.contentType != Some("") && (p.contentType != Some("") ==> q.contentType == p.contentType)
    && q.deliveryMode == if p.deliveryMode == Some(1) then Some(1) else Some(2)
  }

  lemma EnvelopeIsFaithful(m: Msg, opts: Options, filter: Option<Msg -> Verdict>, now: string)
    requires Decide(m, opts, filter, now).Send?
    ensures Faithful(m, Decide(m, opts, filter, now).envelope, opts, now)
  {
    StampCountsUp(m.headers, opts.resetRetry, opts.actor, now);
    StampTouchesNothingElse(m.headers, opts.resetRetry, opts.actor, now);
  }

  /** An explicit target wins; without one a message goes back to the queue that failed, or through a named exchange
      with the key it was first published with; and when its headers name neither it keeps the key it has. */
  lemma ReplayGoesHome(m: Msg, opts: Options, now: string)
    requires ReplayEnvelope(m, opts, now).Some?
    ensures var e := ReplayEnvelope(m, opts, now).value;
            && Some(e.exchange) == (if opts.targetExchange == None then Some("") else opts.targetExchange)
            && if opts.targetQueue !in {None, Some("")} then Some(e.routingKey) == opts.targetQueue
               else if e.exchange == "" then
                 if exists q :: NamesQueue(m.headers, q) then NamesQueue(m.headers, e.routingKey)
                 else e.routingKey == m.routingKey
               else
                 if exists k :: NamesKey(m.headers, k) then NamesKey(m.headers, e.routingKey)
                 else e.routingKey == m.routingKey
  {
    GoesTo(m.headers, m.routingKey, Exchange(opts), opts.targetQueue);
  }

  /** What a replay that returns has put back into a queue it could check survives that, however often it was returned
      before. */
  lemma HeldSurvives(exit: Exit, t: Trace, known: bool, info: QueueInfo, major: nat, maxScan: nat, count: nat)
    requires GuardedExit(exit, t, EnsureBrowsable(true, known, Found(info, Major(Some(major))), maxScan))
    requires exit.Returned? && Held(t) != []
    ensures SurvivesReturn(info, major, count) && (info.quorum ==> info.ready <= maxScan)
  {
    VettedIsSafe(known, info, Some(major), maxScan, count);
  }

  // ---------------------------------------------------------------- what is republished

  lemma {:induction false} OriginalsAt(attempts: seq<Attempt>)
    ensures |Originals(attempts)| == |attempts|
    ensures forall k :: 0 <= k < |attempts| ==> Originals(attempts)[k] == attempts[k].original
  {
    if attempts != [] { OriginalsAt(Prefix(attempts)); }
  }

  lemma {:induction false} EligiblesAre(ms: seq<Msg>, opts: Options, filter: Option<Msg -> Verdict>)
    ensures forall m :: m in Eligibles(ms, opts, filter) <==> m in ms && Eligible(m, opts, filter)
  {
    if ms != [] {
      EligiblesAre(Prefix(ms), opts, filter);
      assert ms == Prefix(ms) + [Final(ms)];
    }
  }

  ghost predicate Attempted(attempts: seq<Attempt>, m: Msg) {
    exists k :: 0 <= k < |attempts| && attempts[k].original == m
  }

  lemma AttemptedIff(attempts: seq<Attempt>, m: Msg)
    ensures Attempted(attempts, m) <==> m in Originals(attempts)
  {
    OriginalsAt(attempts);
    if m in Originals(attempts) {
      var k :| 0 <= k < |attempts| && Originals(attempts)[k] == m;
      assert attempts[k].original == m;
    }
  }

  lemma TriedIff(t: Trace, opts: Options, env: Env, early: bool, m: Msg)
    requires Tried(t, opts, env, early)
    ensures Attempted(t.attempts, m) ==> m in t.fetched && Eligible(m, opts, env.filter)
    ensures m in t.fetched && Eligible(m, opts, env.filter) ==>
              Attempted(t.attempts, m) || (early && m == Final(t.fetched))
  {
    AttemptedIff(t.attempts, m);
    EligiblesAre(t.fetched, opts, env.filter);
    if t.fetched != [] {
      EligiblesAre(Prefix(t.fetched), opts, env.filter);
      assert t.fetched == Prefix(t.fetched) + [Final(t.fetched)];
    }
  }

  /** On every way out, a message that was read and should be republished was handed to the publisher, unless it is the
      last one and raised before that; and nothing else was. */
  lemma RepublishedIff(kind: Kind, r0: seq<Msg>, a0: seq<Msg>, b: Books, t: Trace, opts: Options, env: Env, exit: Exit,
                       m: Msg)
    requires ReplayDone(kind, r0, a0, b, t, opts, env, exit)
    ensures Attempted(t.attempts, m) ==> m in t.fetched && Eligible(m, opts, env.filter)
    ensures m in t.fetched && Eligible(m, opts, env.filter) ==>
              || Attempted(t.attempts, m)
              || (m == Final(t.fetched) && exit.Raised? && BeforeSending(Some(exit.error)))
  {
    TriedIff(t, opts, env, exit.Raised? && BeforeSending(Some(exit.error)), m);
  }

  // ---------------------------------------------------------------- order

  /** What a reader of the queue would see had the acknowledged originals simply been taken out. */
  ghost function Expected(r0: seq<Msg>, t: Trace): seq<Msg> { Without(r0 + t.copies, Gone(t)) }

  lemma ExpectedIsHeldThenRest(r0: seq<Msg>, t: Trace)
    requires t.fetched + t.rest == r0 + t.copies && Distinct(t.fetched + t.rest)
             && forall m :: m in t.acked ==> m in t.fetched
    ensures Expected(r0, t) == Held(t) + t.rest
  {
    DistinctFront(t.fetched, t.rest);
    WithoutConcat(t.fetched, t.rest, Gone(t));
    WithoutNone(t.rest, Gone(t));
  }

  lemma {:induction false} WithoutInOrder(ms: seq<Msg>, gone: set<Msg>)
    requires InOrder(ms)
    ensures InOrder(Without(ms, gone))
  {
    if ms != [] {
      var init, last := ms[..|ms| - 1], ms[|ms| - 1];
      WithoutInOrder(init, gone);
      WithoutMembers(init, gone);
      var w := Without(init, gone);
      forall i | 0 <= i < |w| ensures w[i].pos < last.pos { assert w[i] in init; }
    }
  }

  /** A classic queue keeps its order, whichever way the replay ends. */
  lemma ClassicReplayKeepsOrder(r0: seq<Msg>, a0: seq<Msg>, b: Books, t: Trace, opts: Options, env: Env, exit: Exit)
    requires ReplayDone(Classic, r0, a0, b, t, opts, env, exit) && InOrder(r0)
    requires forall m :: m in t.fetched ==> !env.nackFails(m)
    ensures b.ready == Expected(r0, t) && b.unacked == []
  {
    ExpectedIsHeldThenRest(r0, t);
    WithoutMembers(t.fetched, Gone(t));
    WithoutInOrder(r0 + t.copies, Gone(t));
    ClassicRelease(Expected(r0, t), Held(t), t.rest, env.nackFails);
    NothingStuck(Held(t), env.nackFails);
  }

  /** A quorum queue keeps it exactly when the replay held nothing or read everything. */
  lemma QuorumReplayKeepsOrder(r0: seq<Msg>, a0: seq<Msg>, b: Books, t: Trace, opts: Options, env: Env, exit: Exit)
    requires ReplayDone(Quorum, r0, a0, b, t, opts, env, exit)
    requires forall m :: m in t.fetched ==> !env.nackFails(m)
    ensures b.ready == Expected(r0, t) <==> Held(t) == [] || t.rest == []
    ensures exit.Returned? && opts.limit == None ==> b.ready == Expected(r0, t)
  {
    ExpectedIsHeldThenRest(r0, t);
    WithoutMembers(t.fetched, Gone(t));
    WithoutDistinct(r0 + t.copies, Gone(t));
    QuorumOrderKept(Held(t), t.rest, env.nackFails);
  }

  lemma {:induction false} NothingStuck(held: seq<Msg>, fails: Msg -> bool)
    requires forall m :: m in held ==> !fails(m)
    ensures Stuck(held, fails) == []
  {
    if held != [] { NothingStuck(held[1..], fails); }
  }

  /** A peek puts a classic queue back as it was however far it read and however it ended; a quorum queue exactly
      when it read nothing or everything, which a queue read whole always is. */
  lemma PeekKeepsOrder(ready: seq<Msg>, read: nat, fails: Msg -> bool)
    requires read <= |ready| && forall m :: m in ready ==> !fails(m)
    ensures InOrder(ready) ==> ReleaseAll(Classic, ready[read..], ready[..read], fails) == ready
    ensures Distinct(ready) ==>
              (ReleaseAll(Quorum, ready[read..], ready[..read], fails) == ready <==> read == 0 || read == |ready|)
    ensures Stuck(ready[..read], fails) == []
  {
    var held, rest := ready[..read], ready[read..];
    assert held + rest == ready;
    NothingStuck(held, fails);
    if InOrder(ready) { ClassicRelease(ready, held, rest, fails); }
    if Distinct(ready) { QuorumOrderKept(held, rest, fails); }
  }

  /** A quorum queue that passes the guard is read whole, so a peek that returns leaves it as it was and shows its
      first messages. */
  lemma VettedPeekIsIdentity(ready: seq<Msg>, known: bool, before: bool, info: QueueInfo, major: Option<nat>,
                             limit: int, maxScan: nat, getFails: nat -> bool, fails: Msg -> bool)
    requires info.quorum && Distinct(ready) && forall m :: m in ready ==> !fails(m)
    requires var guard := EnsureBrowsable(true, known, Found(info, Major(major)), maxScan);
             var entire := ReadWhole(guard, before);
             PeekSucceeds(ready, guard, entire, FetchLimit(entire, limit, maxScan), maxScan, getFails)
    ensures var entire := ReadWhole(EnsureBrowsable(true, known, Found(info, Major(major)), maxScan), before);
            var read := Min(|ready|, FetchLimit(entire, limit, maxScan));
            && read == |ready| && ReleaseAll(Quorum, ready[read..], ready[..read], fails) == ready
            && (limit >= 0 ==> Slice(ready[..read], limit) == ready[..Min(limit, |ready|)])
  {
    PeekKeepsOrder(ready, |ready|, fails);
    assert ready[..|ready|] == ready;
  }
}
