/** The Redis lock on one key, as the steps its callers interleave; different keys share nothing.

    Acquiring is `SET NX EX`, then remembering the value in the lock object. Releasing is reading the remembered value,
    an atomic compare-and-delete, then forgetting the value if it is still the one. A caller is a thread, using one of
    any number of lock objects, each of which several threads may share.
 */
module RedisLock {
  import opened Common

  /** A value in Redis and the moment it expires. */
  datatype Lease = Lease(token: nat, expiry: real)

  datatype Stage =
    | Idle
    | Trying(token: nat)
    | Got(token: nat, expiry: real)
    | Holding(token: nat, expiry: real)
    | Evaluating(token: nat, read: nat)
    | Popping(token: nat, read: nat)

  datatype Thread = Thread(instance: nat, stage: Stage)

  /** `owner` says which thread drew each token; tokens are never drawn twice. */
  datatype State = State(ttl: real, now: real, lease: Option<Lease>, tracked: seq<Option<nat>>, threads: seq<Thread>,
                         owner: seq<nat>)

  // ---------------------------------------------------------------- the code

  predicate Free(s: State) { s.lease == None || s.now >= s.lease.value.expiry }

  function To(s: State, th: nat, stage: Stage): State
    requires th < |s.threads|
  {
    s.(threads := s.threads[th := s.threads[th].(stage := stage)])
  }

  function Draw(s: State, th: nat): State
    requires th < |s.threads|
  {
    To(s, th, Trying(|s.owner|)).(owner := s.owner + [th])
  }

  function SetNx(s: State, th: nat): State
    requires th < |s.threads| && s.threads[th].stage.Trying?
  {
    var token := s.threads[th].stage.token;
    if Free(s) then To(s, th, Got(token, s.now + s.ttl)).(lease := Some(Lease(token, s.now + s.ttl))) else s
  }

  function Track(s: State, th: nat): State
    requires th < |s.threads| && s.threads[th].stage.Got? && s.threads[th].instance < |s.tracked|
  {
    var st := s.threads[th].stage;
    To(s, th, Holding(st.token, st.expiry)).(tracked := s.tracked[s.threads[th].instance := Some(st.token)])
  }

  /** The critical section ends here. */
  function ReadTracked(s: State, th: nat): State
    requires th < |s.threads| && s.threads[th].stage.Holding? && s.threads[th].instance < |s.tracked|
  {
    match s.tracked[s.threads[th].instance]
    case None => To(s, th, Idle)
    case Some(read) => To(s, th, Evaluating(s.threads[th].stage.token, read))
  }

  predicate Matches(s: State, read: nat) {
    s.lease.Some? && s.now < s.lease.value.expiry && s.lease.value.token == read
  }

  function Eval(s: State, th: nat): State
    requires th < |s.threads| && s.threads[th].stage.Evaluating?
  {
    var st := s.threads[th].stage;
    if Matches(s, st.read) then To(s, th, Popping(st.token, st.read)).(lease := None) else To(s, th, Idle)
  }

  /** A transport error: the script may have run. */
  function EvalFails(s: State, th: nat, ran: bool): State
    requires th < |s.threads| && s.threads[th].stage.Evaluating?
  {
    To(s, th, Idle).(lease := if ran && Matches(s, s.threads[th].stage.read) then None else s.lease)
  }

  function Pop(s: State, th: nat): State
    requires th < |s.threads| && s.threads[th].stage.Popping? && s.threads[th].instance < |s.tracked|
  {
    var i := s.threads[th].instance;
    To(s, th, Idle).(tracked := if s.tracked[i] == Some(s.threads[th].stage.read) then s.tracked[i := None]
                     else s.tracked)
  }

  /** The reply to a `SET` is lost: the value may be there, and the call raises. */
  function SetLost(s: State, th: nat, ran: bool): State
    requires th < |s.threads| && s.threads[th].stage.Trying?
  {
    To(s, th, Idle).(lease := if ran && Free(s) then Some(Lease(s.threads[th].stage.token, s.now + s.ttl)) else s.lease)
  }

  // ---------------------------------------------------------------- the machine

  datatype Step =
    | Draws(th: nat) | Sets(th: nat) | SetLoses(th: nat, ran: bool) | GivesUp(th: nat) | Tracks(th: nat)
    | Reads(th: nat) | Evals(th: nat) | EvalBreaks(th: nat, ran: bool) | Pops(th: nat)
    | Ticks(span: real)

  predicate Enabled(s: State, step: Step) {
    if step.Ticks? then step.span >= 0.0
    else
      && step.th < |s.threads| && s.threads[step.th].instance < |s.tracked|
      && var st := s.threads[step.th].stage;
         match step
         case Draws(_) => st == Idle
         case Sets(_) => st.Trying?
         case SetLoses(_, _) => st.Trying?
         case GivesUp(_) => st.Trying?
         case Tracks(_) => st.Got?
         case Reads(_) => st.Holding?
         case Evals(_) => st.Evaluating?
         case EvalBreaks(_, _) => st.Evaluating?
         case Pops(_) => st.Popping?
         case Ticks(_) => true
  }

  function Apply(s: State, step: Step): State
    requires Enabled(s, step)
  {
    match step
    case Draws(th) => Draw(s, th)
    case Sets(th) => SetNx(s, th)
    case SetLoses(th, ran) => SetLost(s, th, ran)
    case GivesUp(th) => To(s, th, Idle)
    case Tracks(th) => Track(s, th)
    case Reads(th) => ReadTracked(s, th)
    case Evals(th) => Eval(s, th)
    case EvalBreaks(th, ran) => EvalFails(s, th, ran)
    case Pops(th) => Pop(s, th)
    case Ticks(span) => s.(now := s.now + span)
  }

  // ---------------------------------------------------------------- what every step keeps

  ghost predicate Of(s: State, token: nat, instance: nat) {
    token < |s.owner| && s.owner[token] < |s.threads| && s.threads[s.owner[token]].instance == instance
  }

  ghost predicate ThreadOk(s: State, th: nat)
    requires th < |s.threads|
  {
    var st := s.threads[th].stage;
    && s.threads[th].instance < |s.tracked|
    && (!st.Idle? ==> st.token < |s.owner| && s.owner[st.token] == th)
    && (st.Evaluating? || st.Popping? ==> Of(s, st.read, s.threads[th].instance))
  }

  ghost predicate Inv(s: State) {
    && s.ttl > 0.0
    && (forall th :: 0 <= th < |s.threads| ==> ThreadOk(s, th))
    && (forall i :: 0 <= i < |s.tracked| && s.tracked[i].Some? ==> Of(s, s.tracked[i].value, i))
    && (s.lease.Some? ==> s.lease.value.token < |s.owner| && s.owner[s.lease.value.token] < |s.threads|)
  }

  function Next(s: State, step: Step): State { if Enabled(s, step) then Apply(s, step) else s }

  lemma TrackedStays(s: State, step: Step)
    requires Inv(s) && Enabled(s, step)
    ensures var s2 := Apply(s, step);
            forall i :: 0 <= i < |s2.tracked| && s2.tracked[i].Some? ==> Of(s2, s2.tracked[i].value, i)
  {
    var s2 := Apply(s, step);
    if !step.Ticks? { assert ThreadOk(s, step.th); }
    forall i | 0 <= i < |s2.tracked| && s2.tracked[i].Some? ensures Of(s2, s2.tracked[i].value, i) {
      assert s2.tracked[i] == s.tracked[i] || step.Tracks?;
    }
  }

  /** What a token says of its thread does not change. */
  lemma InstancesStay(s: State, step: Step)
    requires Enabled(s, step)
    ensures var s2 := Apply(s, step);
            && |s2.threads| == |s.threads| && |s2.tracked| == |s.tracked| && |s.owner| <= |s2.owner|
            && (forall k :: 0 <= k < |s.owner| ==> s2.owner[k] == s.owner[k])
            && (forall k :: 0 <= k < |s.threads| ==> s2.threads[k].instance == s.threads[k].instance)
            && (forall k :: 0 <= k < |s.threads| && (step.Ticks? || k != step.th) ==> s2.threads[k] == s.threads[k])
  {
  }

  lemma OthersStay(s: State, step: Step, th: nat)
    requires Inv(s) && Enabled(s, step) && th < |s.threads| && (step.Ticks? || th != step.th)
    ensures th < |Apply(s, step).threads| && ThreadOk(Apply(s, step), th)
  {
    assert ThreadOk(s, th);
    InstancesStay(s, step);
  }

  lemma ActorStays(s: State, step: Step)
    requires Inv(s) && Enabled(s, step) && !step.Ticks?
    ensures step.th < |Apply(s, step).threads| && ThreadOk(Apply(s, step), step.th)
  {
    assert ThreadOk(s, step.th);
    InstancesStay(s, step);
  }

  lemma StepKeeps(s: State, step: Step)
    requires Inv(s)
    ensures Inv(Next(s, step))
  {
    if Enabled(s, step) {
      InstancesStay(s, step);
      forall th | 0 <= th < |s.threads| ensures ThreadOk(Apply(s, step), th) {
        if !step.Ticks? && th == step.th { ActorStays(s, step); } else { OthersStay(s, step, th); }
      }
      TrackedStays(s, step);
      if !step.Ticks? { assert ThreadOk(s, step.th); }
    }
  }

  // ---------------------------------------------------------------- mutual exclusion

  predicate InSection(th: Thread) { th.stage.Got? || th.stage.Holding? }

  /** Every caller inside its section still has its lease. */
  ghost predicate WithinTtl(s: State) {
    forall th :: 0 <= th < |s.threads| && InSection(s.threads[th]) ==> s.now < s.threads[th].stage.expiry
  }

  /** A section is covered by the lease in Redis, and its token is the one remembered. */
  ghost predicate Covered(s: State, th: nat)
    requires th < |s.threads|
  {
    var k := s.threads[th];
    && (InSection(k) ==> s.lease == Some(Lease(k.stage.token, k.stage.expiry)))
    && (k.stage.Holding? ==> k.instance < |s.tracked| && s.tracked[k.instance] == Some(k.stage.token))
    && (k.stage.Evaluating? || k.stage.Popping? ==> k.stage.read == k.stage.token)
  }

  ghost predicate Exclusive(s: State) { forall th :: 0 <= th < |s.threads| ==> Covered(s, th) }

  /** No two sections, since one lease cannot cover both. */
  lemma OneSection(s: State, a: nat, b: nat)
    requires Inv(s) && Exclusive(s) && a < |s.threads| && b < |s.threads| && InSection(s.threads[a])
             && InSection(s.threads[b])
    ensures a == b
  {
    assert Covered(s, a) && Covered(s, b) && ThreadOk(s, a) && ThreadOk(s, b);
  }

  lemma StepKeepsExclusive(s: State, step: Step)
    requires Inv(s) && Exclusive(s) && WithinTtl(s)
    ensures Exclusive(Next(s, step))
  {
    var s2 := Next(s, step);
    if !step.Ticks? && step.th < |s.threads| { assert ThreadOk(s, step.th) && Covered(s, step.th); }
    forall th | 0 <= th < |s2.threads| ensures Covered(s2, th) {
      assert Covered(s, th) && ThreadOk(s, th);
    }
  }

  // ---------------------------------------------------------------- whole runs

  function Start(ttl: real, instances: nat, uses: seq<nat>): State {
    State(ttl, 0.0, None, seq(instances, _ => None), seq(|uses|, k requires 0 <= k < |uses| => Thread(uses[k], Idle)),
          [])
  }

  function Ran(ttl: real, instances: nat, uses: seq<nat>, steps: seq<Step>): State {
    Reached(Next, Start(ttl, instances, uses), steps)
  }

  /** The clock does not pass the end of a lease whose section is still open. */
  ghost function NextInTime(s: State, step: Step): State { if WithinTtl(Next(s, step)) then Next(s, step) else s }

  /** A run in which every section ends before its lease does. */
  ghost function RanInTime(ttl: real, instances: nat, uses: seq<nat>, steps: seq<Step>): State {
    Reached(NextInTime, Start(ttl, instances, uses), steps)
  }

  ghost predicate Fits(instances: nat, uses: seq<nat>) { forall k :: 0 <= k < |uses| ==> uses[k] < instances }

  lemma StartOk(ttl: real, instances: nat, uses: seq<nat>)
    requires ttl > 0.0 && Fits(instances, uses)
    ensures var s := Start(ttl, instances, uses); Inv(s) && Exclusive(s) && WithinTtl(s)
  {
    var s := Start(ttl, instances, uses);
    forall th | 0 <= th < |s.threads| ensures ThreadOk(s, th) && Covered(s, th) {
      assert s.threads[th] == Thread(uses[th], Idle);
    }
  }

  lemma RunKeeps(ttl: real, instances: nat, uses: seq<nat>, steps: seq<Step>)
    requires ttl > 0.0 && Fits(instances, uses)
    ensures Inv(Ran(ttl, instances, uses, steps))
  {
    StartOk(ttl, instances, uses);
    forall s, step | Inv(s) ensures Inv(Next(s, step)) { StepKeeps(s, step); }
    ReachedKeeps(Next, Inv, Start(ttl, instances, uses), steps);
  }

  lemma TimelyRunKeeps(ttl: real, instances: nat, uses: seq<nat>, steps: seq<Step>)
    requires ttl > 0.0 && Fits(instances, uses)
    ensures var s := RanInTime(ttl, instances, uses, steps); Inv(s) && Exclusive(s) && WithinTtl(s)
  {
    StartOk(ttl, instances, uses);
    var inv := (s: State) => Inv(s) && Exclusive(s) && WithinTtl(s);
    forall s, step | inv(s) ensures inv(NextInTime(s, step)) {
      StepKeeps(s, step);
      StepKeepsExclusive(s, step);
    }
    ReachedKeeps(NextInTime, inv, Start(ttl, instances, uses), steps);
  }

  /** While every section ends before its lease, no two overlap: any number of threads, any number of lock objects. */
  lemma MutualExclusion(ttl: real, instances: nat, uses: seq<nat>, steps: seq<Step>, a: nat, b: nat)
    requires ttl > 0.0 && Fits(instances, uses)
    ensures var s := RanInTime(ttl, instances, uses, steps);
            a < |s.threads| && b < |s.threads| && InSection(s.threads[a]) && InSection(s.threads[b]) ==> a == b
  {
    TimelyRunKeeps(ttl, instances, uses, steps);
    var s := RanInTime(ttl, instances, uses, steps);
    if a < |s.threads| && b < |s.threads| && InSection(s.threads[a]) && InSection(s.threads[b]) { OneSection(s, a, b); }
  }

  /** An attempt takes the key exactly when it is free, for the lease time. */
  lemma SetTakesIff(s: State, th: nat)
    requires Enabled(s, Sets(th))
    ensures var s2, token := Apply(s, Sets(th)), s.threads[th].stage.token;
            if s.lease == None || s.now >= s.lease.value.expiry
            then s2.lease == Some(Lease(token, s.now + s.ttl)) && s2.threads[th].stage == Got(token, s.now + s.ttl)
            else s2 == s
  {
  }

  /** A holder that releases in time frees the key and is forgotten: the lease is gone, the object remembers nothing,
      and the key can be taken at once. */
  lemma ReleaseFrees(ttl: real, instances: nat, uses: seq<nat>, steps: seq<Step>, th: nat)
    requires ttl > 0.0 && Fits(instances, uses)
    requires var s := RanInTime(ttl, instances, uses, steps);
             th < |s.threads| && s.threads[th].stage.Holding? && s.now < s.threads[th].stage.expiry
    ensures var s := RanInTime(ttl, instances, uses, steps);
            && Enabled(s, Reads(th)) && Enabled(Next(s, Reads(th)), Evals(th))
            && Enabled(Next(Next(s, Reads(th)), Evals(th)), Pops(th))
            && var s3 := Next(Next(Next(s, Reads(th)), Evals(th)), Pops(th));
               && s3.lease == None && s3.tracked[s3.threads[th].instance] == None && s3.threads[th].stage == Idle
  {
    TimelyRunKeeps(ttl, instances, uses, steps);
    var s := RanInTime(ttl, instances, uses, steps);
    assert ThreadOk(s, th) && Covered(s, th);
  }

  // ---------------------------------------------------------------- whose lease a release deletes

  /** The step removes a lease that had not expired. */
  ghost predicate Deletes(s: State, step: Step) {
    Enabled(s, step) && s.lease.Some? && s.now < s.lease.value.expiry && Apply(s, step).lease == None
  }

  /** Whatever the timing, what a release deletes was acquired through the same lock object. */
  lemma NeverAnotherInstance(ttl: real, instances: nat, uses: seq<nat>, steps: seq<Step>, step: Step)
    requires ttl > 0.0 && Fits(instances, uses) && Deletes(Ran(ttl, instances, uses, steps), step)
    ensures var s := Ran(ttl, instances, uses, steps);
            (step.Evals? || step.EvalBreaks?) && Of(s, s.lease.value.token, s.threads[step.th].instance)
  {
    RunKeeps(ttl, instances, uses, steps);
    if !step.Ticks? { assert ThreadOk(Ran(ttl, instances, uses, steps), step.th); }
  }

  ghost predicate Drawn(s: State, token: nat, th: nat) { token < |s.owner| && s.owner[token] == th }

  /** In a timely run it is the caller's own. */
  lemma TimelyReleaseIsOwn(ttl: real, instances: nat, uses: seq<nat>, steps: seq<Step>, step: Step)
    requires ttl > 0.0 && Fits(instances, uses) && Deletes(RanInTime(ttl, instances, uses, steps), step)
    ensures var s := RanInTime(ttl, instances, uses, steps);
            (step.Evals? || step.EvalBreaks?) && s.lease.value.token == s.threads[step.th].stage.token
            && Drawn(s, s.lease.value.token, step.th)
  {
    TimelyRunKeeps(ttl, instances, uses, steps);
    var s := RanInTime(ttl, instances, uses, steps);
    if !step.Ticks? { assert ThreadOk(s, step.th) && Covered(s, step.th); }
  }

  /** Otherwise it can be another thread's, of the same object: a release run without interruption deletes a lease that
      is not the caller's exactly when the remembered token is another one and that one's lease is live. A caller that
      compares its fencing token first can rule it out. */
  lemma ReleaseIsForeignIff(s: State, th: nat)
    requires Inv(s) && th < |s.threads| && s.threads[th].stage.Holding? && s.threads[th].instance < |s.tracked|
    ensures var k := s.threads[th];
            var s1 := ReadTracked(s, th);
            (s1.threads[th].stage.Evaluating? && Deletes(s1, Evals(th)) && s.lease.value.token != k.stage.token) <==>
            (s.tracked[k.instance].Some? && s.tracked[k.instance].value != k.stage.token
             && Matches(s, s.tracked[k.instance].value))
  {
    assert ThreadOk(s, th);
  }

  /** Two threads share one lock object; the first still thinks it holds the key, the second may. */
  function Shared(ttl: real, now: real, lease: Lease, tracked: nat, second: Stage, owner: seq<nat>): State {
    State(ttl, now, Some(lease), [Some(tracked)], [Thread(0, Holding(0, ttl)), Thread(0, second)], owner)
  }

  lemma Extend(ttl: real, steps: seq<Step>, p: State, step: Step, s: State) returns (longer: seq<Step>)
    requires Ran(ttl, 1, [0, 0], steps) == p && Next(p, step) == s
    ensures Ran(ttl, 1, [0, 0], longer) == s
  {
    longer := steps + [step];
    ReachedSnoc(Next, Start(ttl, 1, [0, 0]), steps, step);
  }

  lemma Acquired(ttl: real, steps: seq<Step>, p: State, th: nat) returns (s: State, longer: seq<Step>)
    requires Ran(ttl, 1, [0, 0], steps) == p
    requires Free(p) && th < |p.threads| && p.threads[th].stage == Idle && p.threads[th].instance < |p.tracked|
    ensures s == Track(SetNx(Draw(p, th), th), th) && Ran(ttl, 1, [0, 0], longer) == s
  {
    var s1 := Draw(p, th);
    var s2 := SetNx(s1, th);
    s := Track(s2, th);
    longer := Extend(ttl, steps, p, Draws(th), s1);
    longer := Extend(ttl, longer, s1, Sets(th), s2);
    longer := Extend(ttl, longer, s2, Tracks(th), s);
  }

  lemma FirstAcquires(ttl: real) returns (steps: seq<Step>)
    requires ttl > 0.0
    ensures Ran(ttl, 1, [0, 0], steps) == Shared(ttl, 0.0, Lease(0, ttl), 0, Idle, [0])
  {
    var s0 := Start(ttl, 1, [0, 0]);
    assert s0.threads == [Thread(0, Idle), Thread(0, Idle)] && s0.tracked == [None];
    var s;
    s, steps := Acquired(ttl, [], s0, 0);
    assert s == Shared(ttl, 0.0, Lease(0, ttl), 0, Idle, [0]);
  }

  lemma SecondAcquires(ttl: real, steps: seq<Step>) returns (longer: seq<Step>)
    requires ttl > 0.0 && Ran(ttl, 1, [0, 0], steps) == Shared(ttl, ttl, Lease(0, ttl), 0, Idle, [0])
    ensures Ran(ttl, 1, [0, 0], longer) == Shared(ttl, ttl, Lease(1, ttl + ttl), 1, Holding(1, ttl + ttl), [0, 1])
  {
    var s;
    s, longer := Acquired(ttl, steps, Shared(ttl, ttl, Lease(0, ttl), 0, Idle, [0]), 1);
    assert s == Shared(ttl, ttl, Lease(1, ttl + ttl), 1, Holding(1, ttl + ttl), [0, 1]);
  }

  /** The first reads the second's token, whose section is still inside its own lease. */
  function Clash(ttl: real): State {
    State(ttl, ttl, Some(Lease(1, ttl + ttl)), [Some(1)],
          [Thread(0, Evaluating(0, 1)), Thread(0, Holding(1, ttl + ttl))], [0, 1])
  }

  /** ... and it happens, whatever the lease time: a late holder and a second thread sharing its lock object. */
  lemma StaleReleaseDeletesAnother(ttl: real)
    requires ttl > 0.0
    ensures exists steps :: Ran(ttl, 1, [0, 0], steps) == Clash(ttl)
    ensures Deletes(Clash(ttl), Evals(0)) && InSection(Clash(ttl).threads[1]) && WithinTtl(Clash(ttl))
  {
    var steps := FirstAcquires(ttl);
    steps := Extend(ttl, steps, Shared(ttl, 0.0, Lease(0, ttl), 0, Idle, [0]), Ticks(ttl),
                    Shared(ttl, ttl, Lease(0, ttl), 0, Idle, [0]));
    steps := SecondAcquires(ttl, steps);
    steps := Extend(ttl, steps, Shared(ttl, ttl, Lease(1, ttl + ttl), 1, Holding(1, ttl + ttl), [0, 1]), Reads(0),
                    Clash(ttl));
  }

  // ---------------------------------------------------------------- the object

  const POLL_INTERVAL := 0.05

  /** What Redis holds, and the time, when a caller looks. */
  datatype World = World(now: real, store: map<string, Lease>)

  predicate Live(w: World, key: string) { key in w.store && w.now < w.store[key].expiry }

  ghost predicate Advances(world: nat -> World) { forall k: nat :: world(k + 1).now >= world(k).now + POLL_INTERVAL }

  /** The `k`-th attempt is made: all before it found the key taken, with time left. */
  ghost predicate Attempted(world: nat -> World, key: string, timeout: real, k: nat) {
    forall j: nat :: j < k ==> Live(world(j), key) && timeout > 0.0 && world(j).now < world(0).now + timeout
  }

  class Lock {
    const ttl: real
    var lockValues: map<string, nat>

    constructor (ttl: real)
      ensures this.ttl == ttl && lockValues == map[]
    {
      this.ttl, lockValues := ttl, map[];
    }

    /** Poll until the key is free or the time is up; `k` is the last attempt. A single attempt without a timeout. */
    method Acquire(world: nat -> World, key: string, timeout: real, token: nat)
      returns (ok: bool, store: map<string, Lease>, ghost k: nat)
      requires Advances(world)
      modifies this`lockValues
      ensures Attempted(world, key, timeout, k) && (ok <==> !Live(world(k), key))
      ensures !ok ==> timeout <= 0.0 || world(k).now >= world(0).now + timeout
      ensures store == if ok then world(k).store[key := Lease(token, world(k).now + ttl)] else world(k).store
      ensures lockValues == if ok then old(lockValues)[key := token] else old(lockValues)
    {
      var deadline := world(0).now + if timeout > 0.0 then timeout else 0.0;
      var i: nat := 0;
      while Live(world(i), key) && timeout > 0.0 && world(i).now < deadline
        invariant Attempted(world, key, timeout, i) && lockValues == old(lockValues)
        decreases ((deadline - world(i).now) * 20.0).Floor
      {
        assert world(i + 1).now >= world(i).now + POLL_INTERVAL;
        i := i + 1;
      }
      k := i;
      store := world(i).store;
      ok := !Live(world(i), key);
      if ok {
        store := store[key := Lease(token, world(i).now + ttl)];
        lockValues := lockValues[key := token];
      }
    }

    /** The compare-and-delete takes the lease out exactly when it is live and carries the remembered token; the
        token is forgotten only then. `lost`: the reply never arrived, and whether the script had run. */
    method Release(w: World, key: string, lost: Option<bool>) returns (store: map<string, Lease>)
      modifies this`lockValues
      ensures var hit := key in old(lockValues) && Live(w, key) && w.store[key].token == old(lockValues)[key];
              && store == (if hit && lost != Some(false) then w.store - {key} else w.store)
              && lockValues == (if hit && lost == None then old(lockValues) - {key} else old(lockValues))
    {
      store := w.store;
      if key !in lockValues { return; }
      var token := lockValues[key];
      var deleted := Live(w, key) && w.store[key].token == token && lost != Some(false);
      if deleted { store := store - {key}; }
      if deleted && lost == None && key in lockValues && lockValues[key] == token { lockValues := lockValues - {key}; }
    }
  }

  /** The loop makes no more attempts than the timeout has room for. */
  lemma {:induction false} AttemptsAreBounded(world: nat -> World, key: string, timeout: real, k: nat)
    requires Advances(world) && Attempted(world, key, timeout, k)
    ensures k > 0 ==> (k - 1) as real * POLL_INTERVAL < timeout
  {
    if k > 0 { TimePasses(world, k - 1); }
  }

  lemma {:induction false} TimePasses(world: nat -> World, k: nat)
    requires Advances(world)
    ensures world(k).now >= world(0).now + k as real * POLL_INTERVAL
  {
    if k > 0 {
      TimePasses(world, k - 1);
      assert world((k - 1) + 1).now >= world(k - 1).now + POLL_INTERVAL;
    }
  }
}
