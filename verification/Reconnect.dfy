/** Reconnecting: what the policy does over a whole life of connects, losses and failed attempts.

    Every failed attempt and every loss of a live connection goes through one hook. The environment decides when a
    connect succeeds, why an attempt fails and how the jitter falls; the clock never runs backwards.
 */
module Reconnect {
  import opened Common

  /** `ceilings` says how much each attempt may wait at most. */
  datatype Config = Config(nodes: nat, start: nat, ceilings: nat -> real, attempts: Option<int>, seconds: Option<real>,
                           steady: real)

  predicate Sound(c: Config) { c.nodes >= 1 && c.start < c.nodes }

  const MAX_EXPONENT := 62

  /** The hooks, with what they are told; a loss carries the node that was lost. */
  datatype Event =
    | Lost(node: nat) | Restored | Attempt(number: nat, delay: real, elapsed: real, node: nat)
    | Terminal(permanent: bool, number: nat, elapsed: real, node: nat)

  datatype State = State(
    config: Config, now: real, node: nat, interval: real, connectedOnce: bool, outage: Option<real>, failures: nat,
    terminal: bool, closing: bool, trace: seq<Event>)

  // ---------------------------------------------------------------- the code

  function Exponent(attempt: nat): nat {
    if attempt == 0 then 0 else if attempt - 1 < MAX_EXPONENT then attempt - 1 else MAX_EXPONENT
  }

  /** The most `backoff_delay` can draw. */
  function Ceiling(base: real, cap: real, attempt: nat): real { MinReal(cap, base * Power(Exponent(attempt))) }

  function Policy(nodes: nat, start: nat, base: real, cap: real, attempts: Option<int>, seconds: Option<real>,
                  steady: real): Config
  {
    Config(nodes, start, (attempt: nat) => Ceiling(base, cap, attempt), attempts, seconds, steady)
  }

  function Connected(s: State): State {
    s.(connectedOnce := true, outage := None, failures := 0, interval := s.config.steady,
       trace := if s.outage.Some? then s.trace + [Restored] else s.trace)
  }

  function GiveUp(s: State, permanent: bool, elapsed: real): State {
    s.(terminal := true, trace := s.trace + [Terminal(permanent, s.failures, elapsed, s.node)])
  }

  predicate Exhausted(s: State, elapsed: real) {
    || (s.config.attempts.Some? && s.failures >= s.config.attempts.value)
    || (s.config.seconds.Some? && elapsed >= s.config.seconds.value)
  }

  function Delay(c: Config, drawn: real, elapsed: real): real {
    if c.seconds.Some? then MinReal(drawn, MaxReal(0.0, c.seconds.value - elapsed)) else drawn
  }

  /** The next node, round robin. */
  function Rotate(node: nat, nodes: nat): nat { if node + 1 < nodes then node + 1 else 0 }

  function Retry(s: State, drawn: real, elapsed: real): State {
    var delay := Delay(s.config, drawn, elapsed);
    s.(interval := delay, node := Rotate(s.node, s.config.nodes),
       trace := s.trace + [Attempt(s.failures, delay, elapsed, s.node)])
  }

  function OnFailure(s: State, permanent: bool, drawn: real): State {
    if s.outage == None then s.(outage := Some(s.now), trace := s.trace + [Lost(s.node)])
    else
      var s1, elapsed := s.(failures := s.failures + 1), s.now - s.outage.value;
      if permanent || Exhausted(s1, elapsed) then GiveUp(s1, permanent, elapsed) else Retry(s1, drawn, elapsed)
  }

  function OnClose(s: State, permanent: bool, drawn: real): State {
    if s.connectedOnce && !s.terminal && !s.closing then OnFailure(s, permanent, drawn) else s
  }

  // ---------------------------------------------------------------- the machine

  datatype Step = Connects | Closes(permanent: bool, drawn: real) | UserCloses | Ticks(span: real)

  /** A failed attempt that is retried. */
  predicate Retries(s: State, permanent: bool) {
    && s.connectedOnce && !s.terminal && !s.closing && s.outage.Some?
    && !permanent && !Exhausted(s.(failures := s.failures + 1), s.now - s.outage.value)
  }

  /** Only a retry draws a wait. */
  predicate MayDraw(s: State, permanent: bool, drawn: real) {
    Retries(s, permanent) ==> 0.0 <= drawn <= s.config.ceilings(s.failures + 1)
  }

  predicate Enabled(s: State, step: Step) {
    match step
    case Connects => true
    case Closes(permanent, drawn) => MayDraw(s, permanent, drawn)
    case UserCloses => true
    case Ticks(span) => span >= 0.0
  }

  function Apply(s: State, step: Step): State
    requires Enabled(s, step)
  {
    match step
    case Connects => Connected(s)
    case Closes(permanent, drawn) => OnClose(s, permanent, drawn)
    case UserCloses => s.(closing := true)
    case Ticks(span) => s.(now := s.now + span)
  }

  // ---------------------------------------------------------------- what a trace must look like

  /** A loss begins an outage and a restoration ends it. */
  function Says(e: Event): Option<bool> {
    match e case Lost(_) => Some(true) case Restored => Some(false) case _ => None
  }

  /** Lost and not yet restored. */
  predicate Down(t: seq<Event>) { Open(Says, t) }

  predicate Ended(t: seq<Event>) { exists i :: 0 <= i < |t| && t[i].Terminal? }

  /** The failed attempts since the last loss. */
  function Attempts(t: seq<Event>): nat {
    if t == [] then 0
    else match Final(t)
         case Lost(_) => 0
         case Attempt(_, _, _, _) => Attempts(Prefix(t)) + 1
         case _ => Attempts(Prefix(t))
  }

  /** The node of the last loss. */
  function LostNode(c: Config, t: seq<Event>): nat {
    if t == [] then c.start else match Final(t) case Lost(node) => node case _ => LostNode(c, Prefix(t))
  }

  /** The node the next attempt goes to. */
  function NextNode(c: Config, t: seq<Event>): nat {
    if t == [] then c.start
    else match Final(t)
         case Lost(node) => node
         case Attempt(_, _, _, _) => Rotate(NextNode(c, Prefix(t)), c.nodes)
         case _ => NextNode(c, Prefix(t))
  }

  ghost predicate AttemptOk(c: Config, t: seq<Event>, e: Event)
    requires e.Attempt?
  {
    && e.number == Attempts(t) + 1 && e.node == NextNode(c, t)
    && 0.0 <= e.delay <= c.ceilings(e.number) && 0.0 <= e.elapsed
    && (c.attempts.Some? ==> e.number < c.attempts.value)
    && (c.seconds.Some? ==> e.elapsed + e.delay <= c.seconds.value)
  }

  /** Giving up needs a reason: a permanent error, or a budget that this failure exhausts. */
  ghost predicate TerminalOk(c: Config, t: seq<Event>, e: Event)
    requires e.Terminal?
  {
    && e.number == Attempts(t) + 1 && e.node == NextNode(c, t)
    && (e.permanent || (c.attempts.Some? && e.number >= c.attempts.value)
        || (c.seconds.Some? && e.elapsed >= c.seconds.value))
  }

  ghost predicate Allows(c: Config, t: seq<Event>, e: Event) {
    match e
    case Lost(node) => !Down(t) && !Ended(t) && node == NextNode(c, t)
    case Restored => Down(t)
    case Attempt(_, _, _, _) => Down(t) && !Ended(t) && AttemptOk(c, t, e)
    case Terminal(_, _, _, _) => Down(t) && !Ended(t) && TerminalOk(c, t, e)
  }

  ghost function Law(c: Config): (seq<Event>, Event) -> bool { (t, e) => Allows(c, t, e) }

  ghost predicate Inv(s: State) {
    && Sound(s.config) && Lawful(Law(s.config), s.trace)
    && (s.outage.Some? <==> Down(s.trace)) && (s.terminal <==> Ended(s.trace))
    && s.node == NextNode(s.config, s.trace) && s.node < s.config.nodes
    && (s.outage.Some? ==> s.outage.value <= s.now && (!s.terminal ==> s.failures == Attempts(s.trace)))
    && (s.outage == None ==> s.failures == 0 && s.interval == s.config.steady)
    && (s.outage.Some? && !s.terminal ==> s.interval == Wait(s.config, s.trace))
  }

  /** What the connection waits before it tries again: what it last reported, and the steady interval right after a
      loss. */
  function Wait(c: Config, t: seq<Event>): real { if t != [] && Final(t).Attempt? then Final(t).delay else c.steady }

  lemma EndedSnoc(t: seq<Event>, e: Event)
    ensures Prefix(t + [e]) == t && Final(t + [e]) == e && (Ended(t + [e]) <==> Ended(t) || e.Terminal?)
  {
    if Ended(t) {
      var i :| 0 <= i < |t| && t[i].Terminal?;
      assert (t + [e])[i] == t[i];
    }
    Snoc(t, e);
  }

  lemma LawfulSnoc(c: Config, t: seq<Event>, e: Event)
    requires Lawful(Law(c), t) && Allows(c, t, e)
    ensures Lawful(Law(c), t + [e])
  {
    Snoc(t, e);
  }

  lemma ConnectedKeeps(s: State)
    requires Inv(s)
    ensures Inv(Connected(s))
  {
    EndedSnoc(s.trace, Restored);
  }

  lemma LostKeeps(s: State)
    requires Inv(s) && s.outage == None && !s.terminal
    ensures Inv(s.(outage := Some(s.now), trace := s.trace + [Lost(s.node)]))
  {
    EndedSnoc(s.trace, Lost(s.node));
  }

  lemma GiveUpKeeps(s: State, permanent: bool, elapsed: real)
    requires Inv(s) && s.outage.Some? && !s.terminal
             && (permanent || Exhausted(s.(failures := s.failures + 1), elapsed))
    ensures Inv(GiveUp(s.(failures := s.failures + 1), permanent, elapsed))
  {
    EndedSnoc(s.trace, Terminal(permanent, s.failures + 1, elapsed, s.node));
  }

  lemma RetryKeeps(s: State, drawn: real)
    requires Inv(s) && s.outage.Some? && !s.terminal && 0.0 <= drawn <= s.config.ceilings(s.failures + 1)
    requires !Exhausted(s.(failures := s.failures + 1), s.now - s.outage.value)
    ensures Inv(Retry(s.(failures := s.failures + 1), drawn, s.now - s.outage.value))
  {
    var s1, elapsed := s.(failures := s.failures + 1), s.now - s.outage.value;
    var e := Attempt(s1.failures, Delay(s.config, drawn, elapsed), elapsed, s.node);
    EndedSnoc(s.trace, e);
    assert AttemptOk(s.config, s.trace, e);
    LawfulSnoc(s.config, s.trace, e);
  }

  function Next(s: State, step: Step): State { if Enabled(s, step) then Apply(s, step) else s }

  /** The hook, by its three outcomes. */
  lemma CloseKeeps(s: State, permanent: bool, drawn: real)
    requires Inv(s) && MayDraw(s, permanent, drawn)
    ensures Inv(OnClose(s, permanent, drawn))
  {
    if s.connectedOnce && !s.terminal && !s.closing {
      if s.outage == None {
        LostKeeps(s);
      } else if permanent || Exhausted(s.(failures := s.failures + 1), s.now - s.outage.value) {
        GiveUpKeeps(s, permanent, s.now - s.outage.value);
      } else {
        RetryKeeps(s, drawn);
      }
    }
  }

  lemma StepKeeps(s: State, step: Step)
    requires Inv(s)
    ensures Inv(Next(s, step)) && Next(s, step).config == s.config
  {
    if Enabled(s, step) {
      match step
      case Connects => ConnectedKeeps(s);
      case Closes(permanent, drawn) => CloseKeeps(s, permanent, drawn);
      case UserCloses =>
      case Ticks(_) =>
    }
  }

  // ---------------------------------------------------------------- whole runs

  function Start(c: Config): State { State(c, 0.0, c.start, c.steady, false, None, 0, false, false, []) }

  function Ran(c: Config, steps: seq<Step>): State { Reached(Next, Start(c), steps) }

  lemma RunKeeps(c: Config, steps: seq<Step>)
    requires Sound(c)
    ensures Inv(Ran(c, steps)) && Ran(c, steps).config == c
  {
    var inv := (s: State) => Inv(s) && s.config == c;
    forall s, step | inv(s) ensures inv(Next(s, step)) { StepKeeps(s, step); }
    ReachedKeeps(Next, inv, Start(c), steps);
  }

  // ---------------------------------------------------------------- what is promised of every run

  /** Lost and restored strictly alternate, lost first. */
  lemma LostAndRestoredAlternate(c: Config, steps: seq<Step>)
    requires Sound(c)
    ensures var s := Ran(c, steps);
            && (forall i :: 0 <= i < |Reports(Says, s.trace)| ==> (Reports(Says, s.trace)[i] <==> i % 2 == 0))
            && (s.outage.Some? <==> |Reports(Says, s.trace)| % 2 == 1)
  {
    RunKeeps(c, steps);
    LawfulAlternates(Law(c), Says, Ran(c, steps).trace);
  }

  /** Giving up is reported once, with a reason; no attempt, loss or second report follows it. */
  lemma TerminalIsTheEnd(c: Config, steps: seq<Step>, i: nat, j: nat)
    requires Sound(c) && i < j < |Ran(c, steps).trace| && Ran(c, steps).trace[i].Terminal?
    ensures var t := Ran(c, steps).trace; t[j] == Restored && Down(t[..i]) && TerminalOk(c, t[..i], t[i])
  {
    RunKeeps(c, steps);
    var t := Ran(c, steps).trace;
    LawfulAt(Law(c), t, i);
    LawfulAt(Law(c), t, j);
    assert t[..j][i] == t[i];
  }

  lemma RotateIsMod(node: nat, nodes: nat)
    requires node < nodes
    ensures Rotate(node, nodes) == (node + 1) % nodes
  {
    if node + 1 < nodes { ModIs(node + 1, nodes, 0, node + 1); } else { ModIs(nodes, nodes, 1, 0); }
  }

  lemma NextIsNext(a: nat, n: nat)
    requires n >= 1
    ensures (a + 1) % n == (a % n + 1) % n
  {
    var q, r := a / n, a % n;
    assert a == q * n + r;
    if r + 1 < n {
      assert a + 1 == q * n + (r + 1);
      ModIs(a + 1, n, q, r + 1);
      ModIs(r + 1, n, 0, r + 1);
    } else {
      assert a + 1 == (q + 1) * n + 0;
      ModIs(a + 1, n, q + 1, 0);
      ModIs(n, n, 1, 0);
    }
  }

  lemma ModIs(x: nat, n: nat, q: nat, r: nat)
    requires n >= 1 && r < n && x == q * n + r
    ensures x % n == r
  {
    DivisionIsUnique(n, q, r, x / n, x % n);
  }

  lemma DivisionIsUnique(n: nat, q: int, r: nat, q2: int, r2: nat)
    requires r < n && r2 < n && q * n + r == q2 * n + r2
    ensures q == q2 && r == r2
  {
    var d := q - q2;
    assert d * n == r2 - r;
    MulAtLeast(d, n);
    MulAtLeast(-d, n);
    assert -d * n == -(d * n);
  }

  lemma MulAtLeast(d: int, n: nat)
    ensures d >= 1 ==> d * n >= n
  {
  }

  /** The rotation in closed form: the attempts of an outage go round from the node that was lost. */
  lemma {:induction false} RoundRobin(c: Config, t: seq<Event>)
    requires Sound(c) && Lawful(Law(c), t)
    ensures NextNode(c, t) == (LostNode(c, t) + Attempts(t)) % c.nodes && NextNode(c, t) < c.nodes
  {
    if t == [] {
      ModIs(c.start, c.nodes, 0, c.start);
    } else {
      RoundRobin(c, Prefix(t));
      match Final(t)
      case Lost(node) => ModIs(node, c.nodes, 0, node);
      case Attempt(_, _, _, _) =>
        RotateIsMod(NextNode(c, Prefix(t)), c.nodes);
        NextIsNext(LostNode(c, Prefix(t)) + Attempts(Prefix(t)), c.nodes);
      case _ =>
    }
  }

  /** Attempts are numbered from one within their outage, below the budget, each wait within its ceiling and within the
      time that is left. */
  lemma AttemptsAreBudgeted(c: Config, steps: seq<Step>, i: nat)
    requires Sound(c) && i < |Ran(c, steps).trace| && Ran(c, steps).trace[i].Attempt?
    ensures var t := Ran(c, steps).trace;
            Down(t[..i]) && AttemptOk(c, t[..i], t[i]) && t[i].node == (LostNode(c, t[..i]) + t[i].number - 1) % c.nodes
  {
    RunKeeps(c, steps);
    LawfulAt(Law(c), Ran(c, steps).trace, i);
    RoundRobin(c, Ran(c, steps).trace[..i]);
  }

  /** So an outage sees fewer attempts than its budget. */
  lemma {:induction false} OutageIsBounded(c: Config, t: seq<Event>)
    requires Lawful(Law(c), t) && c.attempts.Some? && c.attempts.value >= 1
    ensures Attempts(t) <= c.attempts.value - 1
  {
    if t != [] { OutageIsBounded(c, Prefix(t)); }
  }

  lemma OutagesAreBounded(c: Config, steps: seq<Step>)
    requires Sound(c) && c.attempts.Some? && c.attempts.value >= 1
    ensures Attempts(Ran(c, steps).trace) <= c.attempts.value - 1
  {
    RunKeeps(c, steps);
    OutageIsBounded(c, Ran(c, steps).trace);
  }

  /** An attempt and a later one of the same outage, which may be the one that gives up. */
  ghost predicate SameOutage(t: seq<Event>, i: nat, j: nat) {
    i < j < |t| && (forall k :: i <= k < j ==> t[k].Attempt?) && (t[j].Attempt? || t[j].Terminal?)
  }

  lemma {:induction false} AttemptsCount(c: Config, t: seq<Event>, i: nat, j: nat)
    requires SameOutage(t, i, j)
    ensures Attempts(t[..j]) == Attempts(t[..i + 1]) + (j - i - 1) && LostNode(c, t[..j]) == LostNode(c, t[..i + 1])
    decreases j
  {
    if i + 1 < j {
      AttemptsCount(c, t, i, j - 1);
      assert Prefix(t[..j]) == t[..j - 1] && Final(t[..j]) == t[j - 1];
    }
  }

  /** Whatever becomes of a failure, it is reported with the node it was at. */
  lemma FailureNode(c: Config, steps: seq<Step>, i: nat)
    requires Sound(c) && i < |Ran(c, steps).trace| && !Ran(c, steps).trace[i].Lost? && !Ran(c, steps).trace[i].Restored?
    ensures var t := Ran(c, steps).trace; t[i].node == (LostNode(c, t[..i]) + Attempts(t[..i])) % c.nodes
  {
    RunKeeps(c, steps);
    LawfulAt(Law(c), Ran(c, steps).trace, i);
    RoundRobin(c, Ran(c, steps).trace[..i]);
  }

  /** Any run of failures as long as there are nodes tries every node: two failures less than that apart differ, and
      the one that gives up counts. */
  lemma ConsecutiveFailuresSpread(c: Config, steps: seq<Step>, i: nat, j: nat)
    requires Sound(c) && SameOutage(Ran(c, steps).trace, i, j) && j - i < c.nodes
    ensures Ran(c, steps).trace[i].node != Ran(c, steps).trace[j].node
  {
    var t := Ran(c, steps).trace;
    FailureNode(c, steps, i);
    FailureNode(c, steps, j);
    AttemptsCount(c, t, i, j);
    assert Prefix(t[..i + 1]) == t[..i] && Final(t[..i + 1]) == t[i];
    DifferentNodes(LostNode(c, t[..i]) + Attempts(t[..i]), j - i, c.nodes);
  }

  lemma DifferentNodes(a: nat, d: nat, n: nat)
    requires 0 < d < n
    ensures a % n != (a + d) % n
  {
    var q, r := a / n, a % n;
    assert a == q * n + r;
    if r + d < n {
      ModIs(a + d, n, q, r + d);
    } else {
      assert a + d == (q + 1) * n + (r + d - n);
      ModIs(a + d, n, q + 1, r + d - n);
    }
  }

  /** So under exponential backoff the k-th wait of an outage is at most the base doubled k - 1 times, and the cap. */
  lemma WaitsFollowTheBackoff(nodes: nat, start: nat, base: real, cap: real, attempts: Option<int>,
                              seconds: Option<real>, steady: real, steps: seq<Step>, i: nat)
    requires start < nodes
    ensures var t := Ran(Policy(nodes, start, base, cap, attempts, seconds, steady), steps).trace;
            i < |t| && t[i].Attempt? ==>
              t[i].number == Attempts(t[..i]) + 1 && 0.0 <= t[i].delay <= Ceiling(base, cap, t[i].number)
  {
    var c := Policy(nodes, start, base, cap, attempts, seconds, steady);
    var t := Ran(c, steps).trace;
    if i < |t| && t[i].Attempt? {
      AttemptsAreBudgeted(c, steps, i);
      assert c.ceilings(t[i].number) == Ceiling(base, cap, t[i].number);
    }
  }

  /** What is waited is what was reported: in every run the interval is the wait of the last failed attempt while the
      connection is down, and the steady one right after a loss and while it is up. */
  lemma IntervalIsReported(c: Config, steps: seq<Step>)
    requires Sound(c)
    ensures var s := Ran(c, steps);
            && (!Down(s.trace) ==> s.interval == c.steady)
            && (Down(s.trace) && !Ended(s.trace) ==>
                  && (Final(s.trace).Attempt? ==> s.interval == Final(s.trace).delay)
                  && (Final(s.trace).Lost? ==> s.interval == c.steady)
                  && (Final(s.trace).Attempt? || Final(s.trace).Lost?))
  {
    RunKeeps(c, steps);
    var t := Ran(c, steps).trace;
    if Down(t) && !Ended(t) {
      LawfulAt(Law(c), t, |t| - 1);
      assert t[|t| - 1] == Final(t);
    }
  }

  /** The report of the hook, by its cases: nothing before the first connect, once the connection gave up or while it is
      being closed; the loss of a live connection; the end, for a permanent error or a budget this failure exhausts; and
      otherwise an attempt whose wait is the one drawn, cut to the time that is left. */
  lemma HookReports(s: State, permanent: bool, drawn: real)
    ensures var s' := OnClose(s, permanent, drawn);
            if !s.connectedOnce || s.terminal || s.closing then s' == s
            else if s.outage == None then s' == s.(outage := Some(s.now), trace := s.trace + [Lost(s.node)])
            else
              var number, elapsed := s.failures + 1, s.now - s.outage.value;
              if || permanent
                 || (s.config.attempts.Some? && number >= s.config.attempts.value)
                 || (s.config.seconds.Some? && elapsed >= s.config.seconds.value)
              then s'.trace == s.trace + [Terminal(permanent, number, elapsed, s.node)] && s'.terminal
                   && s' == s.(failures := number, terminal := true, trace := s'.trace)
              else
                && s'.trace == s.trace + [Attempt(number, s'.interval, elapsed, s.node)] && s'.failures == number
                && (s.config.seconds == None ==> s'.interval == drawn)
                && (s.config.seconds.Some? ==>
                      && s'.interval <= drawn && s'.interval <= s.config.seconds.value - elapsed
                      && s'.interval in {drawn, s.config.seconds.value - elapsed})
                && s' == s.(failures := number, interval := s'.interval, node := s'.node, trace := s'.trace)
  {
  }

  /** Coming up ends the outage, reports it if there was one, and goes back to the steady interval. */
  lemma ConnectReports(s: State)
    ensures var s' := Connected(s);
            && s'.trace == (if s.outage == None then s.trace else s.trace + [Restored])
            && s' == s.(connectedOnce := true, outage := None, failures := 0, interval := s.config.steady,
                        trace := s'.trace)
  {
  }

  /** The world does as it likes: it connects, the user closes, time passes, and a connection is lost or an attempt
      fails at any time; only the wait of an attempt that is retried is drawn from below its ceiling. */
  lemma WorldIsFree(s: State, permanent: bool, drawn: real, span: real)
    ensures Enabled(s, Connects) && Enabled(s, UserCloses) && (Enabled(s, Ticks(span)) <==> span >= 0.0)
    ensures Enabled(s, Closes(permanent, drawn)) <==>
              || 0.0 <= drawn <= s.config.ceilings(s.failures + 1)
              || OnClose(s, permanent, drawn).trace == s.trace
              || !Final(OnClose(s, permanent, drawn).trace).Attempt?
  {
    HookReports(s, permanent, drawn);
  }

  /** The time that has passed. */
  function Passed(steps: seq<Step>): real {
    if steps == [] then 0.0
    else Passed(Prefix(steps)) + match Final(steps) case Ticks(span) => MaxReal(0.0, span) case _ => 0.0
  }

  /** The clock shows it, so the times reported are times that have passed. */
  lemma {:induction false} ClockRuns(c: Config, steps: seq<Step>)
    ensures Ran(c, steps).now == Passed(steps)
    decreases |steps|
  {
    if steps != [] { ClockRuns(c, Prefix(steps)); }
  }

  /** Once the user closes the connection nothing is reported any more but a restoration. */
  lemma {:induction false} ClosedIsQuiet(c: Config, steps: seq<Step>, more: seq<Step>)
    ensures var s, s' := Ran(c, steps + [UserCloses]), Ran(c, steps + [UserCloses] + more);
            && s.trace == Ran(c, steps).trace && s'.closing
            && s'.trace in [s.trace, s.trace + [Restored]]
            && (s'.trace == s.trace ==> s'.outage in [s.outage, None])
            && (s'.trace != s.trace ==> s.outage.Some? && s'.outage == None)
    decreases |more|
  {
    ReachedSnoc(Next, Start(c), steps, UserCloses);
    var closed := steps + [UserCloses];
    if more == [] {
      assert closed + more == closed;
    } else {
      ClosedIsQuiet(c, steps, Prefix(more));
      assert closed + more == (closed + Prefix(more)) + [Final(more)];
      ReachedSnoc(Next, Start(c), closed + Prefix(more), Final(more));
    }
  }

  /** The ceilings never fall. */
  lemma CeilingsGrow(base: real, cap: real, k: nat)
    requires base >= 0.0 && cap >= 0.0
    ensures 0.0 <= Ceiling(base, cap, k) <= Ceiling(base, cap, k + 1) <= cap
  {
    PowerPositive(Exponent(k));
    var p := Power(Exponent(k));
    if Exponent(k + 1) == Exponent(k) + 1 {
      assert base * Power(Exponent(k + 1)) == 2.0 * (base * p);
    }
    assert base * p >= 0.0;
  }

  // ---------------------------------------------------------------- the object

  class RobustConnection {
    const config: Config
    var node: nat
    var interval: real
    var connectedOnce: bool
    var outage: Option<real>
    var failures: nat
    var terminal: bool
    var closing: bool
    var trace: seq<Event>

    function Now(now: real): State
      reads this
    {
      State(config, now, node, interval, connectedOnce, outage, failures, terminal, closing, trace)
    }

    constructor (config: Config)
      requires Sound(config)
      ensures Now(0.0) == Start(config)
    {
      this.config, node, interval, connectedOnce := config, config.start, config.steady, false;
      outage, failures, terminal, closing, trace := None, 0, false, false, [];
    }

    method OnConnected(now: real)
      requires Inv(Now(now))
      modifies this`connectedOnce, this`outage, this`failures, this`interval, this`trace
      ensures Now(now) == Connected(old(Now(now))) && Inv(Now(now))
    {
      ConnectedKeeps(Now(now));
      var restored := outage.Some?;
      connectedOnce, outage, failures, interval := true, None, 0, config.steady;
      if restored { trace := trace + [Restored]; }
    }

    /** `_on_connection_close`: a loss, a failed attempt, or neither. */
    method OnConnectionClose(now: real, permanent: bool, drawn: real)
      requires Inv(Now(now)) && MayDraw(Now(now), permanent, drawn)
      modifies this`node, this`outage, this`failures, this`interval, this`terminal, this`trace
      ensures Now(now) == OnClose(old(Now(now)), permanent, drawn) && Inv(Now(now))
    {
      CloseKeeps(Now(now), permanent, drawn);
      if !connectedOnce || terminal || closing { return; }
      if outage == None {
        outage, trace := Some(now), trace + [Lost(node)];
      } else {
        FailedAttempt(now, permanent, drawn);
      }
    }

    method FailedAttempt(now: real, permanent: bool, drawn: real)
      requires outage.Some? && node < config.nodes
      modifies this`node, this`failures, this`interval, this`terminal, this`trace
      ensures Now(now) == OnFailure(old(Now(now)), permanent, drawn)
      ensures !old(terminal) ==>
                trace == old(trace) + [if terminal then Terminal(permanent, failures, now - outage.value, node)
                                       else Attempt(failures, interval, now - outage.value, old(node))]
    {
      failures := failures + 1;
      var elapsed := now - outage.value;
      if permanent || (config.attempts.Some? && failures >= config.attempts.value)
        || (config.seconds.Some? && elapsed >= config.seconds.value)
      {
        terminal, trace := true, trace + [Terminal(permanent, failures, elapsed, node)];
        return;
      }
      var delay := drawn;
      if config.seconds.Some? { delay := MinReal(delay, MaxReal(0.0, config.seconds.value - elapsed)); }
      interval := delay;
      trace := trace + [Attempt(failures, delay, elapsed, node)];
      RotateIsMod(node, config.nodes);
      node := (node + 1) % config.nodes;
    }
  }
}
