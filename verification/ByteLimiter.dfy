/** The byte budget: a first-come first-served limit on the bytes in flight.

    Callers are numbered in the order they ask. A caller that has to wait parks on a future, and the future is resolved
    before the caller runs again: a grant and a cancellation can both be under way. Each step is one stretch of code
    between two suspension points.
 */
module ByteLimiter {
  import opened Common

  datatype Future = Pending | Granted | Cancelled | Failed

  /** `interrupted`: a timeout or a cancellation is on its way to the caller. */
  datatype Stage = Waiting(interrupted: bool) | Holding | Returned | GaveUp | Refused

  datatype Request = Request(bytes: nat, future: Future, stage: Stage)

  datatype State = State(limit: nat, used: nat, closed: bool, waiters: seq<nat>, requests: seq<Request>)

  // ---------------------------------------------------------------- the code

  predicate InRange(s: State) { Below(s.waiters, |s.requests|) }

  function SetFuture(s: State, w: nat, f: Future): State
    requires w < |s.requests|
  {
    s.(requests := s.requests[w := s.requests[w].(future := f)])
  }

  function Pop(s: State): State
    requires s.waiters != []
  {
    s.(waiters := s.waiters[1..])
  }

  function GrantHead(s: State): State
    requires s.waiters != [] && s.waiters[0] < |s.requests|
  {
    SetFuture(Pop(s), s.waiters[0], Granted).(used := s.used + s.requests[s.waiters[0]].bytes)
  }

  /** `_grant`: drop abandoned heads, grant heads that fit, stop at one that does not. */
  function GrantAll(s: State): State
    requires InRange(s)
    decreases |s.waiters|
  {
    if s.waiters == [] then s
    else
      var head := s.requests[s.waiters[0]];
      if head.future != Pending then GrantAll(Pop(s))
      else if s.used + head.bytes > s.limit then s
      else GrantAll(GrantHead(s))
  }

  function ReleaseBytes(s: State, n: nat): State
    requires InRange(s)
  {
    GrantAll(s.(used := Max(0, s.used - n)))
  }

  /** The part of `acquire` up to its first suspension. */
  function Ask(s: State, n: nat): State {
    if s.closed then s.(requests := s.requests + [Request(n, Failed, Refused)])
    else if n > s.limit then s.(requests := s.requests + [Request(n, Failed, Refused)])
    else if s.waiters == [] && s.used + n <= s.limit then
      s.(used := s.used + n, requests := s.requests + [Request(n, Granted, Holding)])
    else
      s.(waiters := s.waiters + [|s.requests|], requests := s.requests + [Request(n, Pending, Waiting(false))])
  }

  function SetStage(s: State, k: nat, stage: Stage): State
    requires k < |s.requests|
  {
    s.(requests := s.requests[k := s.requests[k].(stage := stage)])
  }

  /** A timeout or cancellation reaches the parked task: a pending future is cancelled at once. */
  function Interrupt(s: State, k: nat): State
    requires k < |s.requests|
  {
    var s1 := SetStage(s, k, Waiting(true));
    if s.requests[k].future == Pending then SetFuture(s1, k, Cancelled) else s1
  }

  function Drop(ws: seq<nat>, k: nat): seq<nat> {
    if ws == [] then [] else if ws[0] == k then ws[1..] else [ws[0]] + Drop(ws[1..], k)
  }

  /** The part of `acquire` after the wait. */
  function Resume(s: State, k: nat): State
    requires InRange(s) && k < |s.requests|
  {
    var r := s.requests[k];
    if r.stage == Waiting(false) && r.future == Granted then SetStage(s, k, Holding)
    else if r.future == Granted then ReleaseBytes(SetStage(s, k, GaveUp), r.bytes)
    else
      DropKeepsRange(s.waiters, k, |s.requests|);
      GrantAll(SetStage(s, k, GaveUp).(waiters := Drop(s.waiters, k)))
  }

  lemma {:induction false} DropKeepsRange(ws: seq<nat>, k: nat, n: nat)
    requires Below(ws, n)
    ensures Below(Drop(ws, k), n)
  {
    if ws != [] && ws[0] != k { DropKeepsRange(ws[1..], k, n); }
  }

  function FailAll(s: State): State
    requires InRange(s)
    decreases |s.waiters|
  {
    if s.waiters == [] then s
    else if s.requests[s.waiters[0]].future != Pending then FailAll(Pop(s))
    else FailAll(SetFuture(Pop(s), s.waiters[0], Failed))
  }

  // ---------------------------------------------------------------- the machine

  datatype Step =
    | Asks(bytes: nat)
    | Interrupts(k: nat)
    | Resumes(k: nat)
    | Releases(k: nat)
    | Closes

  predicate Enabled(s: State, step: Step) {
    match step
    case Asks(_) => true
    case Interrupts(k) => k < |s.requests| && s.requests[k].stage == Waiting(false)
    case Resumes(k) => k < |s.requests| && s.requests[k].stage.Waiting? && s.requests[k].future != Pending
    case Releases(k) => k < |s.requests| && s.requests[k].stage == Holding
    case Closes => true
  }

  function Apply(s: State, step: Step): State
    requires InRange(s) && Enabled(s, step)
  {
    match step
    case Asks(n) => Ask(s, n)
    case Interrupts(k) => Interrupt(s, k)
    case Resumes(k) => Resume(s, k)
    case Releases(k) => ReleaseBytes(SetStage(s, k, Returned), s.requests[k].bytes)
    case Closes => FailAll(s.(closed := true))
  }

  // ---------------------------------------------------------------- what every step keeps

  /** Bytes granted to a caller that has neither returned them nor given them up. */
  predicate Outstanding(r: Request) { r.stage == Holding || (r.stage.Waiting? && r.future == Granted) }

  function Owed(rs: seq<Request>): nat {
    if rs == [] then 0 else Owed(rs[..|rs| - 1]) + if Outstanding(rs[|rs| - 1]) then rs[|rs| - 1].bytes else 0
  }

  lemma {:induction false} OwedUpdate(rs: seq<Request>, k: nat, r: Request)
    requires k < |rs|
    ensures Owed(rs[k := r]) ==
            Owed(rs) - (if Outstanding(rs[k]) then rs[k].bytes else 0) + if Outstanding(r) then r.bytes else 0
  {
    var n := |rs| - 1;
    assert rs[k := r][..n] == if k < n then rs[..n][k := r] else rs[..n];
    if k < n { OwedUpdate(rs[..n], k, r); }
  }

  lemma OwedSnoc(rs: seq<Request>, r: Request)
    ensures Owed(rs + [r]) == Owed(rs) + if Outstanding(r) then r.bytes else 0
  {
    assert (rs + [r])[..|rs|] == rs;
  }

  /** A parked request is exactly one whose future is pending, plus cancelled ones whose callers have not run yet. */
  ghost predicate RequestOk(s: State, k: nat)
    requires k < |s.requests|
  {
    var r := s.requests[k];
    && (r.future == Pending ==> r.stage == Waiting(false) && k in s.waiters)
    && (r.future == Cancelled ==> r.stage == Waiting(true) || r.stage == GaveUp)
    && (r.stage == Holding ==> r.future == Granted)
    && (k in s.waiters ==> r.stage.Waiting? && r.future in {Pending, Cancelled} && r.bytes <= s.limit)
  }

  ghost predicate Shape(s: State) {
    && InRange(s)
    && (forall i, j :: 0 <= i < j < |s.waiters| ==> s.waiters[i] < s.waiters[j])
    && (forall k :: 0 <= k < |s.requests| ==> RequestOk(s, k))
    && (s.closed ==> s.waiters == [])
  }

  /** First come, first served: nobody is granted bytes while an earlier caller is still parked. */
  ghost predicate Fair(s: State) {
    forall i, j :: 0 <= i < j < |s.requests| && s.requests[j].future == Granted ==> s.requests[i].future != Pending
  }

  /** No wake-up is lost: the head of the line does not fit, or its caller is about to run and pass the turn on. */
  ghost predicate Awake(s: State) {
    s.waiters != [] && s.waiters[0] < |s.requests| && s.requests[s.waiters[0]].future == Pending ==>
      s.used + s.requests[s.waiters[0]].bytes > s.limit
  }

  ghost predicate Balanced(s: State) { s.used == Owed(s.requests) && s.used <= s.limit }

  ghost predicate Inv(s: State) { Shape(s) && Balanced(s) && Fair(s) && Awake(s) }

  lemma PopKeeps(s: State)
    requires Shape(s) && Balanced(s) && Fair(s) && s.waiters != [] && s.requests[s.waiters[0]].future != Pending
    ensures Shape(Pop(s)) && Balanced(Pop(s)) && Fair(Pop(s))
  {
    forall k | 0 <= k < |s.requests| ensures RequestOk(Pop(s), k) {
      assert RequestOk(s, k);
      assert k in s.waiters ==> k == s.waiters[0] || k in s.waiters[1..];
    }
  }

  lemma GrantHeadKeeps(s: State)
    requires Shape(s) && Balanced(s) && Fair(s) && s.waiters != []
    requires s.requests[s.waiters[0]].future == Pending && s.used + s.requests[s.waiters[0]].bytes <= s.limit
    ensures Shape(GrantHead(s)) && Balanced(GrantHead(s)) && Fair(GrantHead(s))
  {
    var w, s2 := s.waiters[0], GrantHead(s);
    assert RequestOk(s, w);
    OwedUpdate(s.requests, w, s.requests[w].(future := Granted));
    forall k | 0 <= k < |s2.requests| ensures RequestOk(s2, k) {
      assert RequestOk(s, k);
      assert k in s.waiters ==> k == w || k in s.waiters[1..];
      assert w !in s.waiters[1..];
    }
    forall i, j | 0 <= i < j < |s2.requests| && s2.requests[j].future == Granted
      ensures s2.requests[i].future != Pending
    {
      assert RequestOk(s, i);
      assert i in s.waiters ==> w <= i;
    }
  }

  lemma {:induction false} GrantAllKeeps(s: State)
    requires Shape(s) && Balanced(s) && Fair(s)
    ensures Inv(GrantAll(s))
    decreases |s.waiters|
  {
    if s.waiters != [] {
      var head := s.requests[s.waiters[0]];
      if head.future != Pending {
        PopKeeps(s);
        GrantAllKeeps(Pop(s));
      } else if s.used + head.bytes <= s.limit {
        GrantHeadKeeps(s);
        GrantAllKeeps(GrantHead(s));
      }
    }
  }

  /** A caller that is answered at once, and one that parks. */
  lemma AnswerKeeps(s: State, r: Request, used: nat)
    requires Inv(s)
    requires || (r.stage == Refused && r.future == Failed && used == s.used)
             || (r.stage == Holding && r.future == Granted && s.waiters == [] && used == s.used + r.bytes <= s.limit)
    ensures Inv(s.(used := used, requests := s.requests + [r]))
  {
    var s2, last := s.(used := used, requests := s.requests + [r]), |s.requests|;
    OwedSnoc(s.requests, r);
    forall k | 0 <= k < |s2.requests| ensures RequestOk(s2, k) {
      if k < last { assert RequestOk(s, k); }
    }
    forall i, j | 0 <= i < j < |s2.requests| && s2.requests[j].future == Granted
      ensures s2.requests[i].future != Pending
    {
      assert RequestOk(s, i);
    }
  }

  lemma ParkKeeps(s: State, n: nat)
    requires Inv(s) && !s.closed && n <= s.limit && (s.waiters != [] || s.used + n > s.limit)
    ensures Inv(s.(waiters := s.waiters + [|s.requests|],
                   requests := s.requests + [Request(n, Pending, Waiting(false))]))
  {
    var r, last := Request(n, Pending, Waiting(false)), |s.requests|;
    var s2 := s.(waiters := s.waiters + [last], requests := s.requests + [r]);
    OwedSnoc(s.requests, r);
    forall k | 0 <= k < |s2.requests| ensures RequestOk(s2, k) {
      if k < last { assert RequestOk(s, k); }
    }
  }

  lemma AskKeeps(s: State, n: nat)
    requires Inv(s)
    ensures Inv(Ask(s, n))
  {
    var s2 := Ask(s, n);
    if s.closed || n > s.limit {
      AnswerKeeps(s, Request(n, Failed, Refused), s.used);
      assert s2 == s.(used := s.used, requests := s.requests + [Request(n, Failed, Refused)]);
    } else if s.waiters == [] && s.used + n <= s.limit {
      AnswerKeeps(s, Request(n, Granted, Holding), s.used + n);
      assert s2 == s.(used := s.used + n, requests := s.requests + [Request(n, Granted, Holding)]);
    } else {
      ParkKeeps(s, n);
    }
  }

  lemma InterruptKeeps(s: State, k: nat)
    requires Inv(s) && Enabled(s, Interrupts(k))
    ensures Inv(Interrupt(s, k))
  {
    var s2 := Interrupt(s, k);
    assert RequestOk(s, k);
    OwedUpdate(s.requests, k, s2.requests[k]);
    assert s2.requests == s.requests[k := s2.requests[k]];
    forall i | 0 <= i < |s2.requests| ensures RequestOk(s2, i) { assert RequestOk(s, i); }
  }

  lemma {:induction false} DropMembers(ws: seq<nat>, k: nat)
    requires forall i, j :: 0 <= i < j < |ws| ==> ws[i] < ws[j]
    ensures forall w :: w in Drop(ws, k) <==> w in ws && w != k
    ensures forall i, j :: 0 <= i < j < |Drop(ws, k)| ==> Drop(ws, k)[i] < Drop(ws, k)[j]
  {
    if ws != [] {
      DropMembers(ws[1..], k);
      assert forall w :: w in ws <==> w == ws[0] || w in ws[1..];
      var d := Drop(ws[1..], k);
      forall i | 0 <= i < |d| ensures ws[0] < d[i] { assert d[i] in ws[1..]; }
    }
  }

  /** Leaving the line, or giving back what was granted. */
  lemma LeaveKeeps(s: State, k: nat, stage: Stage)
    requires Shape(s) && Balanced(s) && Fair(s) && k < |s.requests| && stage in {GaveUp, Returned}
    requires s.requests[k].future != Pending && (stage == GaveUp || s.requests[k].future == Granted)
    ensures var r := s.requests[k];
            var s2 := SetStage(s, k, stage).(used := if Outstanding(r) then Max(0, s.used - r.bytes) else s.used,
                                             waiters := Drop(s.waiters, k));
            (Outstanding(r) ==> r.bytes <= s.used) && Shape(s2) && Balanced(s2) && Fair(s2)
  {
    var r := s.requests[k];
    OwedUpdate(s.requests, k, r.(stage := stage));
    DropMembers(s.waiters, k);
    DropKeepsRange(s.waiters, k, |s.requests|);
    if Outstanding(r) { OwedUpdate(s.requests, k, r.(stage := GaveUp)); }
    var s2 := SetStage(s, k, stage).(used := if Outstanding(r) then Max(0, s.used - r.bytes) else s.used,
                                     waiters := Drop(s.waiters, k));
    forall i | 0 <= i < |s2.requests| ensures RequestOk(s2, i) { assert RequestOk(s, i); }
  }

  lemma {:induction false} DropAbsent(ws: seq<nat>, k: nat)
    requires k !in ws
    ensures Drop(ws, k) == ws
  {
    if ws != [] { DropAbsent(ws[1..], k); }
  }

  lemma ResumeKeeps(s: State, k: nat)
    requires Inv(s) && Enabled(s, Resumes(k))
    ensures Inv(Resume(s, k))
  {
    var r := s.requests[k];
    assert RequestOk(s, k);
    if r.stage == Waiting(false) && r.future == Granted {
      var s2 := SetStage(s, k, Holding);
      OwedUpdate(s.requests, k, r.(stage := Holding));
      forall i | 0 <= i < |s2.requests| ensures RequestOk(s2, i) { assert RequestOk(s, i); }
    } else {
      LeaveKeeps(s, k, GaveUp);
      if r.future == Granted { DropAbsent(s.waiters, k); }
      GrantAllKeeps(SetStage(s, k, GaveUp).(used := if r.future == Granted then s.used - r.bytes else s.used,
                                            waiters := Drop(s.waiters, k)));
    }
  }

  lemma ReleaseKeeps(s: State, k: nat)
    requires Inv(s) && Enabled(s, Releases(k))
    ensures Inv(Apply(s, Releases(k)))
  {
    var r := s.requests[k];
    assert RequestOk(s, k);
    LeaveKeeps(s, k, Returned);
    DropAbsent(s.waiters, k);
    GrantAllKeeps(SetStage(s, k, Returned).(used := s.used - r.bytes));
  }

  lemma FailHeadKeeps(s: State)
    requires Shape(s.(closed := false)) && Balanced(s) && Fair(s) && s.waiters != []
    ensures var w := s.waiters[0];
            var s2 := if s.requests[w].future != Pending then Pop(s) else SetFuture(Pop(s), w, Failed);
            Shape(s2.(closed := false)) && Balanced(s2) && Fair(s2)
  {
    var w := s.waiters[0];
    var s0 := s.(closed := false);
    assert RequestOk(s0, w);
    if s.requests[w].future != Pending {
      PopKeeps(s0);
      assert Pop(s).(closed := false) == Pop(s0);
    } else {
      var s2 := SetFuture(Pop(s), w, Failed);
      OwedUpdate(s.requests, w, s2.requests[w]);
      forall k | 0 <= k < |s2.requests| ensures RequestOk(s2.(closed := false), k) {
        assert RequestOk(s0, k);
        assert k in s.waiters ==> k == w || k in s.waiters[1..];
        assert w !in s.waiters[1..];
      }
    }
  }

  lemma {:induction false} FailAllKeeps(s: State)
    requires Shape(s.(closed := false)) && Balanced(s) && Fair(s)
    ensures Inv(FailAll(s)) && FailAll(s).waiters == []
    decreases |s.waiters|
  {
    if s.waiters != [] {
      FailHeadKeeps(s);
      FailAllKeeps(if s.requests[s.waiters[0]].future != Pending then Pop(s)
                   else SetFuture(Pop(s), s.waiters[0], Failed));
    } else {
      forall k | 0 <= k < |s.requests| ensures RequestOk(s, k) { assert RequestOk(s.(closed := false), k); }
    }
  }

  lemma CloseKeeps(s: State)
    requires Inv(s)
    ensures Inv(FailAll(s.(closed := true))) && FailAll(s.(closed := true)).waiters == []
  {
    forall k | 0 <= k < |s.requests| ensures RequestOk(s.(closed := false), k) { assert RequestOk(s, k); }
    FailAllKeeps(s.(closed := true));
  }

  lemma GrantRestores(s: State)
    requires InRange(s)
    ensures Shape(s) && Balanced(s) && Fair(s) ==> Inv(GrantAll(s))
  {
    if Shape(s) && Balanced(s) && Fair(s) { GrantAllKeeps(s); }
  }

  lemma ReleaseRestores(s: State, n: nat)
    requires InRange(s)
    ensures Shape(s) && Fair(s) && n <= s.used && Balanced(s.(used := s.used - n)) ==> Inv(ReleaseBytes(s, n))
  {
    if Shape(s) && Fair(s) && n <= s.used && Balanced(s.(used := s.used - n)) {
      var s1 := s.(used := s.used - n);
      forall k | 0 <= k < |s.requests| ensures RequestOk(s1, k) { assert RequestOk(s, k); }
      GrantAllKeeps(s1);
    }
  }

  function Next(s: State, step: Step): State { if InRange(s) && Enabled(s, step) then Apply(s, step) else s }

  lemma {:induction false} GrantAllLimit(s: State)
    requires InRange(s)
    ensures GrantAll(s).limit == s.limit
    decreases |s.waiters|
  {
    if s.waiters != [] {
      var head := s.requests[s.waiters[0]];
      if head.future != Pending { GrantAllLimit(Pop(s)); }
      else if s.used + head.bytes <= s.limit { GrantAllLimit(GrantHead(s)); }
    }
  }

  lemma {:induction false} FailAllLimit(s: State)
    requires InRange(s)
    ensures FailAll(s).limit == s.limit
    decreases |s.waiters|
  {
    if s.waiters != [] {
      FailAllLimit(if s.requests[s.waiters[0]].future != Pending then Pop(s)
                   else SetFuture(Pop(s), s.waiters[0], Failed));
    }
  }

  lemma LimitStays(s: State, step: Step)
    requires InRange(s) && Enabled(s, step)
    ensures Apply(s, step).limit == s.limit
  {
    match step
    case Asks(_) =>
    case Interrupts(_) =>
    case Resumes(k) =>
      var r, s1 := s.requests[k], SetStage(s, k, GaveUp);
      DropKeepsRange(s.waiters, k, |s.requests|);
      GrantAllLimit(s1.(used := Max(0, s.used - r.bytes)));
      GrantAllLimit(s1.(waiters := Drop(s.waiters, k)));
    case Releases(k) => GrantAllLimit(SetStage(s, k, Returned).(used := Max(0, s.used - s.requests[k].bytes)));
    case Closes => FailAllLimit(s.(closed := true));
  }

  lemma StepKeeps(s: State, step: Step)
    requires Inv(s)
    ensures Inv(Next(s, step)) && Next(s, step).limit == s.limit
  {
    if Enabled(s, step) {
      LimitStays(s, step);
      match step
      case Asks(n) => AskKeeps(s, n);
      case Interrupts(k) => InterruptKeeps(s, k);
      case Resumes(k) => ResumeKeeps(s, k);
      case Releases(k) => ReleaseKeeps(s, k);
      case Closes => CloseKeeps(s);
    }
  }

  // ---------------------------------------------------------------- whole runs

  function Start(limit: nat): State { State(limit, 0, false, [], []) }

  function Ran(limit: nat, steps: seq<Step>): State { Reached(Next, Start(limit), steps) }

  lemma RunKeeps(limit: nat, steps: seq<Step>)
    ensures Inv(Ran(limit, steps)) && Ran(limit, steps).limit == limit
  {
    var inv := (s: State) => Inv(s) && s.limit == limit;
    forall s, step | inv(s) ensures inv(Next(s, step)) { StepKeeps(s, step); }
    ReachedKeeps(Next, inv, Start(limit), steps);
  }

  /** A caller is refused exactly when the budget is closed or could never hold its bytes, served at once exactly when
      they fit and nobody waits, and otherwise parked at the end of the line. */
  lemma AskAnswers(s: State, n: nat)
    ensures var s2, k := Ask(s, n), |s.requests|;
            && |s2.requests| == k + 1 && s2.requests[..k] == s.requests && s2.requests[k].bytes == n
            && s2 == s.(used := s2.used, waiters := s2.waiters, requests := s2.requests)
            && (s2.requests[k].stage == Refused <==> s.closed || n > s.limit)
            && (s2.requests[k].stage == Holding <==> !s.closed && s.waiters == [] && s.used + n <= s.limit)
            && (s2.requests[k].stage == Waiting(false) <==>
                  !s.closed && n <= s.limit && (s.waiters != [] || s.used + n > s.limit))
            && s2.used == s.used + (if s2.requests[k].stage == Holding then n else 0)
            && s2.waiters == (if s2.requests[k].stage == Waiting(false) then s.waiters + [k] else s.waiters)
  {
  }

  lemma {:induction false} GrantKeepsStages(s: State, k: nat)
    requires InRange(s) && k < |s.requests|
    ensures k < |GrantAll(s).requests| && GrantAll(s).requests[k].stage == s.requests[k].stage
    decreases |s.waiters|
  {
    if s.waiters != [] {
      var head := s.requests[s.waiters[0]];
      if head.future != Pending { GrantKeepsStages(Pop(s), k); }
      else if s.used + head.bytes <= s.limit { GrantKeepsStages(GrantHead(s), k); }
    }
  }

  /** A parked caller gets its bytes exactly when its turn came and nothing interrupted it; else it has given up. */
  lemma ResumeAnswers(s: State, k: nat)
    requires InRange(s) && Enabled(s, Resumes(k))
    ensures k < |Resume(s, k).requests|
    ensures Resume(s, k).requests[k].stage ==
            if s.requests[k].future == Granted && s.requests[k].stage == Waiting(false) then Holding else GaveUp
  {
    var r, s1 := s.requests[k], SetStage(s, k, GaveUp);
    if !(r.stage == Waiting(false) && r.future == Granted) {
      DropKeepsRange(s.waiters, k, |s.requests|);
      if r.future == Granted {
        GrantKeepsStages(s1.(used := Max(0, s.used - r.bytes)), k);
      } else {
        GrantKeepsStages(s1.(waiters := Drop(s.waiters, k)), k);
      }
    }
  }

  /** The budget is the bytes callers still owe, never more than the limit, and all of it comes back. */
  lemma BudgetIsExact(limit: nat, steps: seq<Step>)
    ensures var s := Ran(limit, steps);
            && s.used == Owed(s.requests) <= limit
            && ((forall k :: 0 <= k < |s.requests| ==> !Outstanding(s.requests[k])) ==> s.used == 0)
  {
    RunKeeps(limit, steps);
    var s := Ran(limit, steps);
    if forall k :: 0 <= k < |s.requests| ==> !Outstanding(s.requests[k]) { NothingOwed(s.requests); }
  }

  lemma {:induction false} NothingOwed(rs: seq<Request>)
    requires forall k :: 0 <= k < |rs| ==> !Outstanding(rs[k])
    ensures Owed(rs) == 0
  {
    if rs != [] { NothingOwed(rs[..|rs| - 1]); }
  }

  /** Whoever is granted bytes was first among those still waiting. */
  lemma FirstComeFirstServed(limit: nat, steps: seq<Step>, i: nat, j: nat)
    requires i < j < |Ran(limit, steps).requests| && Ran(limit, steps).requests[j].future == Granted
    ensures Ran(limit, steps).requests[i].future != Pending
  {
    RunKeeps(limit, steps);
  }

  /** A parked caller is never forgotten: with no interruption in flight, the first in line does not fit, so somebody
      else holds bytes and returning them looks at the line again. */
  lemma NoLostWakeup(limit: nat, steps: seq<Step>, k: nat)
    requires k < |Ran(limit, steps).requests| && Ran(limit, steps).requests[k].future == Pending
    requires forall i :: 0 <= i < |Ran(limit, steps).requests| ==> Ran(limit, steps).requests[i].stage != Waiting(true)
    ensures var s := Ran(limit, steps);
            && s.waiters != [] && s.waiters[0] <= k && s.requests[s.waiters[0]].future == Pending
            && s.used + s.requests[s.waiters[0]].bytes > limit && s.used > 0
  {
    RunKeeps(limit, steps);
    var s := Ran(limit, steps);
    assert RequestOk(s, k);
    assert RequestOk(s, s.waiters[0]);
    var i :| 0 <= i < |s.waiters| && s.waiters[i] == k;
  }

  /** Closing answers everybody who is parked, and nobody parks again. */
  lemma ClosedIsFinal(limit: nat, steps: seq<Step>, k: nat)
    requires Ran(limit, steps).closed && k < |Ran(limit, steps).requests|
    ensures var s := Ran(limit, steps);
            && s.requests[k].future != Pending
            && forall n :: Ask(s, n).requests[|s.requests|].stage == Refused && Ask(s, n).used == s.used
  {
    RunKeeps(limit, steps);
    assert RequestOk(Ran(limit, steps), k);
  }

  // ---------------------------------------------------------------- nobody is stuck

  /** Anybody may ask, and the budget may be closed; a parked caller can be interrupted, and then or once it is answered
      it can go on; a holder can give its bytes back. */
  lemma NobodyIsStuck(s: State, k: nat, n: nat)
    requires Inv(s) && k < |s.requests|
    ensures Enabled(s, Asks(n)) && Enabled(s, Closes) && Next(s, Closes).closed
    ensures match s.requests[k].stage
            case Waiting(false) =>
              && Enabled(s, Interrupts(k)) && Next(s, Interrupts(k)).requests[k].stage == Waiting(true)
              && Next(s, Interrupts(k)).requests[k].future ==
                 (if s.requests[k].future == Pending then Cancelled else s.requests[k].future)
              && (s.requests[k].future != Pending ==> Enabled(s, Resumes(k)))
            case Waiting(true) => Enabled(s, Resumes(k))
            case Holding => Enabled(s, Releases(k))
            case _ => true
  {
    assert RequestOk(s, k);
    FailAllCloses(s.(closed := true));
  }

  lemma {:induction false} FailAllCloses(s: State)
    requires InRange(s)
    ensures FailAll(s).closed == s.closed
    decreases |s.waiters|
  {
    if s.waiters != [] {
      if s.requests[s.waiters[0]].future != Pending { FailAllCloses(Pop(s)); }
      else { FailAllCloses(SetFuture(Pop(s), s.waiters[0], Failed)); }
    }
  }

  /** How many steps of its own a caller can still take, and a grant before them. */
  function Load(r: Request): nat {
    match r.stage
    case Holding => 1
    case Waiting(_) => if r.future == Pending then 3 else 2
    case _ => 0
  }

  function TotalLoad(rs: seq<Request>): nat { if rs == [] then 0 else TotalLoad(Prefix(rs)) + Load(Final(rs)) }

  /** The same request, except that its turn may have come. */
  predicate Served(r: Request, r': Request) { r' == r || (r.future == Pending && r' == r.(future := Granted)) }

  lemma {:induction false} LoadDrops(rs: seq<Request>, rs': seq<Request>, j: nat)
    requires |rs| == |rs'| && j < |rs| && Load(rs'[j]) < Load(rs[j])
    requires forall k :: 0 <= k < |rs| && k != j ==> Load(rs'[k]) <= Load(rs[k])
    ensures TotalLoad(rs') < TotalLoad(rs)
  {
    if j == |rs| - 1 {
      LoadStays(Prefix(rs), Prefix(rs'));
    } else {
      LoadDrops(Prefix(rs), Prefix(rs'), j);
      assert Load(Final(rs')) <= Load(Final(rs));
    }
  }

  lemma {:induction false} LoadStays(rs: seq<Request>, rs': seq<Request>)
    requires |rs| == |rs'| && forall k :: 0 <= k < |rs| ==> Load(rs'[k]) <= Load(rs[k])
    ensures TotalLoad(rs') <= TotalLoad(rs)
  {
    if rs != [] {
      LoadStays(Prefix(rs), Prefix(rs'));
      assert Load(Final(rs')) <= Load(Final(rs));
    }
  }

  lemma {:induction false} GrantAllServes(s: State)
    requires InRange(s)
    ensures |GrantAll(s).requests| == |s.requests|
    ensures forall k :: 0 <= k < |s.requests| ==> Served(s.requests[k], GrantAll(s).requests[k])
    decreases |s.waiters|
  {
    if s.waiters != [] {
      var head := s.requests[s.waiters[0]];
      if head.future != Pending { GrantAllServes(Pop(s)); }
      else if s.used + head.bytes <= s.limit { GrantAllServes(GrantHead(s)); }
    }
  }

  /** A caller that goes on moves itself, and at most brings others their turn. */
  lemma MoveServes(s: State, step: Step, j: nat)
    requires Inv(s) && Enabled(s, step) && (step == Resumes(j) || step == Releases(j))
    ensures var s2 := Next(s, step);
            && |s2.requests| == |s.requests| && Load(s2.requests[j]) < Load(s.requests[j])
            && forall k :: 0 <= k < |s.requests| && k != j ==> Served(s.requests[k], s2.requests[k])
  {
    var r := s.requests[j];
    if step.Releases? {
      GrantAllServes(SetStage(s, j, Returned).(used := Max(0, s.used - r.bytes)));
    } else if r.future == Granted {
      GrantAllServes(SetStage(s, j, GaveUp).(used := Max(0, s.used - r.bytes)));
    } else {
      DropKeepsRange(s.waiters, j, |s.requests|);
      GrantAllServes(SetStage(s, j, GaveUp).(waiters := Drop(s.waiters, j)));
    }
  }

  /** While anybody is parked, somebody else can go on. */
  lemma SomebodyMoves(s: State, k: nat) returns (j: nat, step: Step)
    requires Inv(s) && k < |s.requests| && s.requests[k].future == Pending
    ensures j < |s.requests| && j != k && (step == Resumes(j) || step == Releases(j)) && Enabled(s, step)
  {
    if i :| 0 <= i < |s.requests| && s.requests[i].stage == Waiting(true) {
      assert RequestOk(s, i) && RequestOk(s, k);
      j, step := i, Resumes(i);
    } else {
      assert RequestOk(s, k) && RequestOk(s, s.waiters[0]);
      if forall i :: 0 <= i < |s.requests| ==> !Outstanding(s.requests[i]) { NothingOwed(s.requests); }
      j :| 0 <= j < |s.requests| && Outstanding(s.requests[j]);
      step := if s.requests[j].stage == Holding then Releases(j) else Resumes(j);
    }
  }

  /** Nobody starves: from every state of every run, the callers that have been answered need only finish for a parked
      caller to get its turn, and how many steps that takes is bounded by those who asked before. */
  lemma {:induction false} EverybodyIsServed(s: State, k: nat) returns (more: seq<Step>)
    requires Inv(s) && k < |s.requests| && s.requests[k].future == Pending
    ensures |more| <= TotalLoad(s.requests) && forall i :: 0 <= i < |more| ==> more[i].Resumes? || more[i].Releases?
    ensures var s2 := Reached(Next, s, more);
            k < |s2.requests| && s2.requests[k] == s.requests[k].(future := Granted)
    decreases TotalLoad(s.requests)
  {
    var j, step := SomebodyMoves(s, k);
    MoveServes(s, step, j);
    var s2 := Next(s, step);
    LoadDrops(s.requests, s2.requests, j);
    StepKeeps(s, step);
    assert Served(s.requests[k], s2.requests[k]);
    var rest := [];
    if s2.requests[k].future == Pending { rest := EverybodyIsServed(s2, k); }
    more := [step] + rest;
    ReachedSnoc(Next, s, [], step);
    assert [] + [step] == [step];
    ReachedConcat(Next, s, [step], rest);
  }

  // ---------------------------------------------------------------- the object

  class InFlightByteLimiter {
    const limit: nat
    var used: nat
    var closed: bool
    var waiters: seq<nat>
    var requests: seq<Request>

    function Now(): State
      reads this
    {
      State(limit, used, closed, waiters, requests)
    }

    constructor (limit: nat)
      requires limit >= 1
      ensures Now() == Start(limit) && Inv(Now())
    {
      this.limit, used, closed, waiters, requests := limit, 0, false, [], [];
    }

    /** Whatever the line looked like, afterwards its head does not fit. */
    method Grant()
      requires InRange(Now())
      modifies this`used, this`waiters, this`requests
      ensures Now() == GrantAll(old(Now()))
      ensures old(Shape(Now()) && Balanced(Now()) && Fair(Now())) ==> Inv(Now())
    {
      GrantRestores(Now());
      while waiters != []
        invariant InRange(Now()) && GrantAll(Now()) == GrantAll(old(Now()))
        decreases |waiters|
      {
        var w := waiters[0];
        if requests[w].future != Pending {
          waiters := waiters[1..];
        } else {
          if used + requests[w].bytes > limit { return; }
          waiters := waiters[1..];
          used := used + requests[w].bytes;
          requests := requests[w := requests[w].(future := Granted)];
        }
      }
    }

    /** `acquire` up to its first suspension. */
    method Acquire(n: nat) returns (answer: Stage)
      modifies this`used, this`waiters, this`requests
      ensures Now() == Ask(old(Now()), n) && answer == requests[|old(requests)|].stage
      ensures old(Inv(Now())) ==> Inv(Now())
      ensures used == old(used) + if answer == Holding then n else 0
    {
      if Inv(Now()) { AskKeeps(Now(), n); }
      if closed || n > limit {
        answer := Refused;
        requests := requests + [Request(n, Failed, answer)];
      } else if waiters == [] && used + n <= limit {
        answer := Holding;
        used := used + n;
        requests := requests + [Request(n, Granted, answer)];
      } else {
        answer := Waiting(false);
        waiters := waiters + [|requests|];
        requests := requests + [Request(n, Pending, answer)];
      }
    }

    /** Bytes that nobody owes any more go back, and the books balance again. */
    method Release(n: nat)
      requires InRange(Now())
      modifies this`used, this`waiters, this`requests
      ensures Now() == ReleaseBytes(old(Now()), n)
      ensures old(Shape(Now()) && Fair(Now()) && n <= used && Balanced(Now().(used := used - n))) ==> Inv(Now())
    {
      ReleaseRestores(Now(), n);
      used := if used < n then 0 else used - n;
      Grant();
    }

    /** A caller that holds its bytes returns them. */
    method Return(k: nat)
      requires Inv(Now()) && Enabled(Now(), Releases(k))
      modifies this`used, this`waiters, this`requests
      ensures Now() == Next(old(Now()), Releases(k)) && Inv(Now())
    {
      ReleaseKeeps(Now(), k);
      requests := requests[k := requests[k].(stage := Returned)];
      Release(requests[k].bytes);
    }

    /** `acquire` after the wait; true exactly when the caller now holds its bytes. */
    method AfterWait(k: nat) returns (held: bool)
      requires InRange(Now()) && Enabled(Now(), Resumes(k))
      modifies this`used, this`waiters, this`requests
      ensures Now() == Next(old(Now()), Resumes(k)) && (old(Inv(Now())) ==> Inv(Now()))
      ensures held <==> old(requests)[k].future == Granted && old(requests)[k].stage == Waiting(false)
      ensures k < |requests| && (held <==> requests[k].stage == Holding)
    {
      if Inv(Now()) { ResumeKeeps(Now(), k); }
      ResumeAnswers(Now(), k);
      var r := requests[k];
      held := r.future == Granted && r.stage == Waiting(false);
      requests := requests[k := r.(stage := if held then Holding else GaveUp)];
      if !held {
        if r.future == Granted {
          Release(r.bytes);
        } else {
          DropKeepsRange(waiters, k, |requests|);
          waiters := Drop(waiters, k);
          Grant();
        }
      }
    }

    method Close()
      requires InRange(Now())
      modifies this`closed, this`waiters, this`requests
      ensures Now() == Next(old(Now()), Closes) && waiters == [] && (old(Inv(Now())) ==> Inv(Now()))
    {
      if Inv(Now()) { CloseKeeps(Now()); }
      closed := true;
      while waiters != []
        invariant InRange(Now()) && FailAll(Now()) == FailAll(old(Now()).(closed := true))
        decreases |waiters|
      {
        var w := waiters[0];
        waiters := waiters[1..];
        if requests[w].future == Pending { requests := requests[w := requests[w].(future := Failed)]; }
      }
    }
  }
}
