/** Shared vocabulary. */
module Common {

  datatype Option<+T> = None | Some(value: T)

  function Min(a: int, b: int): int { if a < b then a else b }

  function Max(a: int, b: int): int { if a < b then b else a }

  function MinReal(a: real, b: real): real { if a < b then a else b }

  function MaxReal(a: real, b: real): real { if a < b then b else a }

  function Power(n: nat): real { if n == 0 then 1.0 else 2.0 * Power(n - 1) }

  lemma {:induction false} PowerPositive(n: nat)
    ensures Power(n) >= 1.0
  {
    if n > 0 { PowerPositive(n - 1); }
  }

  /** All but the last of a history. */
  function Prefix<T>(s: seq<T>): seq<T>
    requires s != []
  {
    s[..|s| - 1]
  }

  function Final<T>(s: seq<T>): T
    requires s != []
  {
    s[|s| - 1]
  }

  lemma Snoc<T>(t: seq<T>, e: T)
    ensures Prefix(t + [e]) == t && Final(t + [e]) == e
  {
  }

  function Elements<T>(s: seq<T>): set<T> { set x | x in s }

  predicate Below(ns: seq<nat>, n: nat) { forall i :: 0 <= i < |ns| ==> ns[i] < n }

  /** A queue is emptied, loses its head or grows at its end. */
  ghost predicate Moves<T>(p: seq<T>, q: seq<T>) { q == [] || (p != [] && q == p[1..]) || p <= q }

  /** So what is left of an earlier queue stays in front, in its order. */
  lemma MovesOn<T>(was: seq<T>, taken: nat, p: seq<T>, q: seq<T>) returns (more: nat)
    requires taken <= |was| && was[taken..] <= p && Moves(p, q)
    ensures more <= |was| && was[more..] <= q
  {
    if q == [] {
      more := |was|;
    } else if p <= q {
      more := taken;
    } else if taken < |was| {
      more := taken + 1;
      assert was[more..] == was[taken..][1..];
      assert p[..|was| - taken] == was[taken..];
      assert q[..|was| - more] == p[..|was| - taken][1..];
    } else {
      more := taken;
    }
  }

  // ---------------------------------------------------------------- histories of events

  /** Each event is allowed after the ones before it. */
  ghost predicate Lawful<T>(allows: (seq<T>, T) -> bool, t: seq<T>) {
    t == [] || (Lawful(allows, Prefix(t)) && allows(Prefix(t), Final(t)))
  }

  lemma {:induction false} LawfulAt<T>(allows: (seq<T>, T) -> bool, t: seq<T>, i: nat)
    requires Lawful(allows, t) && i < |t|
    ensures Lawful(allows, t[..i]) && allows(t[..i], t[i])
    decreases |t|
  {
    if i + 1 < |t| {
      LawfulAt(allows, Prefix(t), i);
      assert Prefix(t)[..i] == t[..i];
    } else {
      assert t[..i] == Prefix(t);
    }
  }

  /** What the events report, in order: that something began, or that it ended. */
  function Reports<T>(says: T -> Option<bool>, t: seq<T>): seq<bool> {
    if t == [] then []
    else Reports(says, Prefix(t)) + match says(Final(t)) case Some(began) => [began] case None => []
  }

  /** The last report was a beginning. */
  predicate Open<T>(says: T -> Option<bool>, t: seq<T>) {
    t != [] && match says(Final(t)) case Some(began) => began case None => Open(says, Prefix(t))
  }

  /** If the law lets something begin only while it is not open, and end only while it is, beginnings and ends strictly
      alternate, a beginning first. */
  lemma {:induction false} LawfulAlternates<T(!new)>(allows: (seq<T>, T) -> bool, says: T -> Option<bool>, t: seq<T>)
    requires Lawful(allows, t)
    requires forall p, e :: allows(p, e) && says(e).Some? ==> says(e).value == !Open(says, p)
    ensures forall i :: 0 <= i < |Reports(says, t)| ==> (Reports(says, t)[i] <==> i % 2 == 0)
    ensures Open(says, t) <==> |Reports(says, t)| % 2 == 1
  {
    if t != [] { LawfulAlternates(allows, says, Prefix(t)); }
  }

  // ---------------------------------------------------------------- runs of a machine

  /** The state a machine is in after some steps; a step that is not enabled changes nothing. */
  function Reached<S, T>(next: (S, T) -> S, from: S, steps: seq<T>): S
    decreases |steps|
  {
    if steps == [] then from else next(Reached(next, from, Prefix(steps)), Final(steps))
  }

  lemma ReachedSnoc<S, T>(next: (S, T) -> S, from: S, steps: seq<T>, step: T)
    ensures Reached(next, from, steps + [step]) == next(Reached(next, from, steps), step)
  {
    assert Prefix(steps + [step]) == steps;
  }

  lemma {:induction false} ReachedConcat<S, T>(next: (S, T) -> S, from: S, a: seq<T>, b: seq<T>)
    ensures Reached(next, from, a + b) == Reached(next, Reached(next, from, a), b)
    decreases |b|
  {
    if b == [] {
      assert a + b == a;
    } else {
      ReachedConcat(next, from, a, Prefix(b));
      assert Prefix(a + b) == a + Prefix(b) && Final(a + b) == Final(b);
    }
  }

  /** What every step keeps, every run keeps. */
  lemma {:induction false} ReachedKeeps<S(!new), T(!new)>(next: (S, T) -> S, inv: S -> bool, from: S, steps: seq<T>)
    requires inv(from) && forall s, step :: inv(s) ==> inv(next(s, step))
    ensures inv(Reached(next, from, steps))
    decreases |steps|
  {
    if steps != [] { ReachedKeeps(next, inv, from, Prefix(steps)); }
  }
}
