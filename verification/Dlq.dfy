/** The dead-letter queue as the broker keeps it, and what one peek or replay does to it.

    `basic.get` moves the head of the ready messages to the unacknowledged ones (section 1.8.3.10 of the AMQP 0-9-1
    reference), `basic.ack` removes an unacknowledged message (section 1.8.3.13), and a negative acknowledgement with
    requeue returns one: a classic queue puts it back where it was, a quorum queue at the back. A message's `pos` is
    its place in the order of arrival, so it identifies the message.
 */
module Dlq {
  import opened Common
  import opened DlqHeaders

  datatype Props = Props(
    messageId: Option<string>,
    correlationId: Option<string>,
    contentType: Option<string>,
    contentEncoding: Option<string>,
    replyTo: Option<string>,
    priority: Option<int>,
    expiration: Option<string>,
    timestamp: Option<int>,
    deliveryMode: Option<int>,
    kind: Option<string>,
    appId: Option<string>,
    userId: Option<string>)

  datatype Msg = Msg(pos: nat, body: string, headers: Headers, routingKey: string, props: Props)

  datatype Envelope = Envelope(routingKey: string, body: string, exchange: string, headers: Headers, props: Props,
                               mandatory: bool)

  datatype Kind = Classic | Quorum

  // ---------------------------------------------------------------- republishing

  datatype Options = Options(
    queue: string,
    targetQueue: Option<string>,
    targetExchange: Option<string>,
    resetRetry: bool,
    limit: Option<int>,
    allowSelfReplay: bool,
    maxReplays: Option<int>,
    actor: string)

  /** Every property is copied; an unknown delivery mode is sent as persistent. */
  function ReplayProps(p: Props): Props {
    p.(messageId := if p.messageId == Some("") then None else p.messageId,
       contentType := if p.contentType == Some("") then None else p.contentType,
       deliveryMode := if p.deliveryMode in {Some(1), Some(2)} then p.deliveryMode else Some(2))
  }

  function Exchange(opts: Options): string { match opts.targetExchange case Some(x) => x case None => "" }

  /** Nothing when the replay count cannot be read, which raises. */
  function ReplayEnvelope(m: Msg, opts: Options, now: string): Option<Envelope> {
    match PrepareReplayHeaders(m.headers, opts.resetRetry, opts.actor, now)
    case None => None
    case Some(h) =>
      Some(Envelope(ResolveRoutingKey(m.headers, m.routingKey, Exchange(opts), opts.targetQueue),
                    m.body, Exchange(opts), h, ReplayProps(m.props), true))
  }

  predicate SelfReplay(e: Envelope, opts: Options) {
    !opts.allowSelfReplay && e.exchange == "" && e.routingKey == opts.queue
  }

  predicate OverLimit(m: Msg, max: Option<int>) {
    max.Some? && ReplayCount(m.headers).Some? && ReplayCount(m.headers).value >= max.value
  }

  // ---------------------------------------------------------------- queue order

  predicate InOrder(ms: seq<Msg>) { forall i, j :: 0 <= i < j < |ms| ==> ms[i].pos < ms[j].pos }

  predicate Distinct(ms: seq<Msg>) { forall i, j :: 0 <= i < j < |ms| ==> ms[i].pos != ms[j].pos }

  /** A classic queue returns a message to its place. */
  function Insert(ready: seq<Msg>, m: Msg): seq<Msg> {
    if ready == [] || m.pos < ready[0].pos then [m] + ready else [ready[0]] + Insert(ready[1..], m)
  }

  function Requeue(kind: Kind, ready: seq<Msg>, m: Msg): seq<Msg> {
    match kind case Classic => Insert(ready, m) case Quorum => ready + [m]
  }

  /** Requeue the held messages in the order they were read, skipping those whose nack fails. */
  function ReleaseAll(kind: Kind, ready: seq<Msg>, held: seq<Msg>, fails: Msg -> bool): seq<Msg>
    decreases |held|
  {
    if held == [] then ready
    else ReleaseAll(kind, if fails(held[0]) then ready else Requeue(kind, ready, held[0]), held[1..], fails)
  }

  function Stuck(held: seq<Msg>, fails: Msg -> bool): seq<Msg> {
    if held == [] then [] else (if fails(held[0]) then [held[0]] else []) + Stuck(held[1..], fails)
  }

  /** The messages of `ms` that are not in `gone`, in order. */
  function Without(ms: seq<Msg>, gone: set<Msg>): seq<Msg> {
    if ms == [] then []
    else Without(ms[..|ms| - 1], gone) + (if ms[|ms| - 1] in gone then [] else [ms[|ms| - 1]])
  }

  lemma {:induction false} WithoutMore(ms: seq<Msg>, gone: set<Msg>, m: Msg)
    requires m !in ms
    ensures Without(ms, gone + {m}) == Without(ms, gone)
  {
    if ms != [] {
      assert m !in ms[..|ms| - 1];
      WithoutMore(ms[..|ms| - 1], gone, m);
    }
  }

  lemma WithoutSnoc(ms: seq<Msg>, gone: set<Msg>, m: Msg)
    ensures Without(ms + [m], gone) == Without(ms, gone) + if m in gone then [] else [m]
  {
    assert (ms + [m])[..|ms|] == ms;
  }

  lemma {:induction false} WithoutMembers(ms: seq<Msg>, gone: set<Msg>)
    ensures forall m :: m in Without(ms, gone) <==> m in ms && m !in gone
    ensures multiset(Without(ms, gone)) <= multiset(ms)
  {
    if ms != [] {
      var init, last := ms[..|ms| - 1], ms[|ms| - 1];
      WithoutMembers(init, gone);
      assert ms == init + [last];
    }
  }

  lemma {:induction false} WithoutConcat(a: seq<Msg>, b: seq<Msg>, gone: set<Msg>)
    ensures Without(a + b, gone) == Without(a, gone) + Without(b, gone)
  {
    if b == [] {
      assert a + b == a;
    } else {
      var n := |b| - 1;
      WithoutConcat(a, b[..n], gone);
      assert (a + b)[..|a + b| - 1] == a + b[..n];
    }
  }

  lemma {:induction false} WithoutNone(ms: seq<Msg>, gone: set<Msg>)
    requires forall m :: m in ms ==> m !in gone
    ensures Without(ms, gone) == ms
  {
    if ms != [] {
      assert ms == ms[..|ms| - 1] + [ms[|ms| - 1]];
      WithoutNone(ms[..|ms| - 1], gone);
    }
  }

  // ---------------------------------------------------------------- what releasing does

  lemma {:induction false} InsertKeeps(ready: seq<Msg>, m: Msg)
    ensures multiset(Insert(ready, m)) == multiset(ready) + multiset{m}
  {
    if ready != [] && m.pos >= ready[0].pos {
      InsertKeeps(ready[1..], m);
      assert ready == [ready[0]] + ready[1..];
    }
  }

  lemma RequeueKeeps(kind: Kind, ready: seq<Msg>, m: Msg)
    ensures multiset(Requeue(kind, ready, m)) == multiset(ready) + multiset{m}
  {
    InsertKeeps(ready, m);
  }

  lemma HeadCount(ms: seq<Msg>)
    requires ms != []
    ensures multiset(ms) == multiset{ms[0]} + multiset(ms[1..])
  {
    assert ms == [ms[0]] + ms[1..];
  }

  lemma StuckCount(held: seq<Msg>, fails: Msg -> bool)
    requires held != []
    ensures multiset(Stuck(held, fails)) ==
            (if fails(held[0]) then multiset{held[0]} else multiset{}) + multiset(Stuck(held[1..], fails))
  {
    if !fails(held[0]) { assert [] + Stuck(held[1..], fails) == Stuck(held[1..], fails); }
  }

  function Count(ms: seq<Msg>, x: Msg): nat { multiset(ms)[x] }

  lemma {:induction false} ReleaseCounts(kind: Kind, ready: seq<Msg>, held: seq<Msg>, fails: Msg -> bool, x: Msg)
    ensures Count(ReleaseAll(kind, ready, held, fails), x) + Count(Stuck(held, fails), x) ==
            Count(ready, x) + Count(held, x)
    decreases |held|
  {
    if held != [] {
      HeadCount(held);
      StuckCount(held, fails);
      if fails(held[0]) {
        ReleaseCounts(kind, ready, held[1..], fails, x);
      } else {
        RequeueKeeps(kind, ready, held[0]);
        ReleaseCounts(kind, Requeue(kind, ready, held[0]), held[1..], fails, x);
      }
    }
  }

  /** Releasing loses nothing and invents nothing: what is not requeued stays unacknowledged. */
  lemma ReleaseConserves(kind: Kind, ready: seq<Msg>, held: seq<Msg>, fails: Msg -> bool)
    ensures multiset(ReleaseAll(kind, ready, held, fails)) + multiset(Stuck(held, fails)) ==
            multiset(ready) + multiset(held)
  {
    var after := multiset(ReleaseAll(kind, ready, held, fails)) + multiset(Stuck(held, fails));
    var before := multiset(ready) + multiset(held);
    forall x ensures after[x] == before[x] { ReleaseCounts(kind, ready, held, fails, x); }
  }

  lemma {:induction false} InsertBetween(before: seq<Msg>, m: Msg, after: seq<Msg>)
    requires forall x :: x in before ==> x.pos <= m.pos
    requires forall x :: x in after ==> m.pos < x.pos
    ensures Insert(before + after, m) == before + [m] + after
    decreases |before|
  {
    if before == [] {
      assert before + after == after;
      assert after != [] ==> after[0] in after;
    } else {
      InsertBetween(before[1..], m, after);
      assert before[0] in before;
      assert (before + after)[1..] == before[1..] + after;
      assert [before[0]] + (before[1..] + [m] + after) == before + [m] + after;
    }
  }

  lemma {:induction false} ClassicReleaseFrom(all: seq<Msg>, placed: seq<Msg>, held: seq<Msg>, rest: seq<Msg>,
                                              fails: Msg -> bool)
    requires forall m :: m in held ==> !fails(m)
    requires InOrder(all) && all == placed + held + rest
    ensures ReleaseAll(Classic, placed + rest, held, fails) == all
    decreases |held|
  {
    if held == [] {
      assert placed + held + rest == placed + rest;
    } else {
      var m := held[0];
      assert all[|placed|] == m;
      forall x | x in placed ensures x.pos <= m.pos {
        var i :| 0 <= i < |placed| && placed[i] == x;
        assert all[i] == x;
      }
      forall x | x in rest ensures m.pos < x.pos {
        var i :| 0 <= i < |rest| && rest[i] == x;
        assert all[|placed| + |held| + i] == x;
      }
      InsertBetween(placed, m, rest);
      assert placed + [m] + held[1..] + rest == all;
      ClassicReleaseFrom(all, placed + [m], held[1..], rest, fails);
    }
  }

  /** A classic queue puts everything back where it was, whatever was read and wherever the reading stopped. */
  lemma ClassicRelease(all: seq<Msg>, held: seq<Msg>, rest: seq<Msg>, fails: Msg -> bool)
    requires (forall m :: m in held ==> !fails(m)) && InOrder(all) && all == held + rest
    ensures ReleaseAll(Classic, rest, held, fails) == all
  {
    var none: seq<Msg> := [];
    assert none + rest == rest;
    assert none + held == held;
    ClassicReleaseFrom(all, none, held, rest, fails);
  }

  /** A quorum queue puts them behind whatever was not read. */
  lemma {:induction false} QuorumRelease(ready: seq<Msg>, held: seq<Msg>, fails: Msg -> bool)
    requires forall m :: m in held ==> !fails(m)
    ensures ReleaseAll(Quorum, ready, held, fails) == ready + held
    decreases |held|
  {
    if held == [] {
      assert ready + held == ready;
    } else {
      QuorumRelease(ready + [held[0]], held[1..], fails);
      assert (ready + [held[0]]) + held[1..] == ready + held;
    }
  }

  /** So a quorum queue keeps its order exactly when nothing was held or nothing was left unread. */
  lemma QuorumOrderKept(held: seq<Msg>, rest: seq<Msg>, fails: Msg -> bool)
    requires (forall m :: m in held ==> !fails(m)) && Distinct(held + rest)
    ensures ReleaseAll(Quorum, rest, held, fails) == held + rest <==> held == [] || rest == []
  {
    QuorumRelease(rest, held, fails);
    if held == [] || rest == [] {
      assert rest + held == held + rest;
    } else {
      assert (rest + held)[0] == rest[0] && (held + rest)[0] == held[0];
      assert (held + rest)[|held|] == rest[0];
    }
  }
}
