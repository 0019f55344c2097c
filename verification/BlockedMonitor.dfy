/** The blocked-connection monitor, over every sequence of polls.

    A poll that finds no live transport changes nothing, so only effective polls are part of the history: the time, the
    underlying connection, whether it was blocked, and whether a reconnect was allowed.
 */
module BlockedMonitor {
  import opened Common

  datatype Sighting = Sighting(now: real, underlay: nat, blocked: bool, allowed: bool)

  datatype Report = Blocked | Unblocked

  // ---------------------------------------------------------------- what the history says

  /** The last poll goes on with the alarm of the one before: same connection, both blocked. */
  predicate Continues(h: seq<Sighting>)
    requires h != []
  {
    Prefix(h) != [] && Final(Prefix(h)).blocked && Final(h).blocked && Final(Prefix(h)).underlay == Final(h).underlay
  }

  /** Where the alarm the last poll belongs to began. */
  function AlarmStart(h: seq<Sighting>): nat
    requires h != []
    ensures AlarmStart(h) < |h|
  {
    if Continues(h) then AlarmStart(Prefix(h)) else |h| - 1
  }

  predicate Overdue(h: seq<Sighting>, timeout: real)
    requires h != []
  {
    Final(h).blocked && timeout > 0.0 && Final(h).now - h[AlarmStart(h)].now >= timeout
  }

  /** The alarm has been overdue at this poll or before. */
  predicate Spent(h: seq<Sighting>, timeout: real)
    requires h != []
  {
    Overdue(h, timeout) || (Continues(h) && Spent(Prefix(h), timeout))
  }

  /** It is overdue now and was not before. */
  predicate Fires(h: seq<Sighting>, timeout: real)
    requires h != []
  {
    Overdue(h, timeout) && !(Continues(h) && Spent(Prefix(h), timeout))
  }

  function Forced(h: seq<Sighting>, timeout: real): nat {
    if h == [] then 0 else Forced(Prefix(h), timeout) + if Fires(h, timeout) && Final(h).allowed then 1 else 0
  }

  function Reports(h: seq<Sighting>): seq<Report> {
    if h == [] then []
    else
      var was := Prefix(h) != [] && Final(Prefix(h)).blocked;
      Reports(Prefix(h)) + (if Final(h).blocked == was then [] else if was then [Unblocked] else [Blocked])
  }

  // ---------------------------------------------------------------- the object

  class BlockedConnectionMonitor {
    const timeout: real
    var blocked: bool
    var blockedSince: Option<real>
    var underlay: Option<nat>
    var forcedReconnects: nat
    var reports: seq<Report>
    ghost var history: seq<Sighting>

    function Now(): Fields
      reads this
    {
      Fields(blocked, blockedSince, underlay, forcedReconnects, reports)
    }

    ghost predicate Valid()
      reads this
    {
      Tracks(Now(), history, timeout)
    }

    constructor (timeout: real)
      ensures Valid() && history == [] && this.timeout == timeout
    {
      this.timeout, blocked, blockedSince, underlay := timeout, false, None, None;
      forcedReconnects, reports, history := 0, [], [];
    }

    /** One observation: nothing, or a connection and whether it is blocked. */
    method Poll(now: real, seen: Option<(nat, bool)>, allowed: bool) returns (forces: bool)
      requires Valid()
      modifies this
      ensures Valid()
      ensures history == if seen == None then old(history)
              else old(history) + [Sighting(now, seen.value.0, seen.value.1, allowed)]
      ensures forces <==> seen.Some? && allowed && Fires(history, timeout)
    {
      if seen == None { return false; }
      ghost var p := Sighting(now, seen.value.0, seen.value.1, allowed);
      SeesKeeps(Now(), history, p, timeout);
      forces := Observe(now, seen.value.0, seen.value.1, allowed);
      history := history + [p];
    }

    method Observe(now: real, connection: nat, isBlocked: bool, allowed: bool) returns (forces: bool)
      modifies this`blocked, this`blockedSince, this`underlay, this`forcedReconnects, this`reports
      ensures (Now(), forces) == Sees(old(Now()), Sighting(now, connection, isBlocked, allowed), timeout)
    {
      if underlay != Some(connection) {
        underlay := Some(connection);
        blockedSince := if blocked then Some(now) else None;
      }
      if isBlocked && !blocked {
        blocked, blockedSince := true, Some(now);
        reports := reports + [Blocked];
      } else if !isBlocked && blocked {
        blocked, blockedSince := false, None;
        reports := reports + [Unblocked];
      } else {
        assert reports + [] == reports;
      }
      forces := false;
      if blocked && timeout > 0.0 && blockedSince.Some? && now - blockedSince.value >= timeout {
        blockedSince := None;
        if allowed {
          forcedReconnects := forcedReconnects + 1;
          forces := true;
        }
      }
    }
  }

  /** What the monitor remembers. */
  datatype Fields = Fields(blocked: bool, since: Option<real>, underlay: Option<nat>, forced: nat, reports: seq<Report>)

  /** It is what the history says. */
  ghost predicate Tracks(f: Fields, history: seq<Sighting>, timeout: real) {
    && f.reports == Reports(history) && f.forced == Forced(history, timeout)
    && (history == [] ==> !f.blocked && f.since == None && f.underlay == None)
    && (history != [] ==> f.blocked == Final(history).blocked && f.underlay == Some(Final(history).underlay))
    && (!f.blocked ==> f.since == None)
    && (history != [] && f.blocked ==>
          f.since == if Spent(history, timeout) then None else Some(history[AlarmStart(history)].now))
  }

  /** One sighting, on the fields. */
  function Sees(f: Fields, p: Sighting, timeout: real): (Fields, bool) {
    var since0 := if f.underlay == Some(p.underlay) then f.since else if f.blocked then Some(p.now) else None;
    var since := if p.blocked && !f.blocked then Some(p.now) else if !p.blocked && f.blocked then None else since0;
    var due := p.blocked && timeout > 0.0 && since.Some? && p.now - since.value >= timeout;
    var forces := due && p.allowed;
    (Fields(p.blocked, if due then None else since, Some(p.underlay), f.forced + (if forces then 1 else 0),
            f.reports + (if p.blocked == f.blocked then [] else if f.blocked then [Unblocked] else [Blocked])), forces)
  }

  lemma SeesKeeps(f: Fields, history: seq<Sighting>, p: Sighting, timeout: real)
    requires Tracks(f, history, timeout)
    ensures var (f', forces) := Sees(f, p, timeout);
            Tracks(f', history + [p], timeout) && (forces <==> p.allowed && Fires(history + [p], timeout))
  {
    Extended(history, p, timeout);
    SinceIs(f, history, p, timeout);
  }

  lemma SinceIs(f: Fields, history: seq<Sighting>, p: Sighting, timeout: real)
    requires Tracks(f, history, timeout)
    ensures var since0 := if f.underlay == Some(p.underlay) then f.since else if f.blocked then Some(p.now) else None;
            var since :=
              if p.blocked && !f.blocked then Some(p.now) else if !p.blocked && f.blocked then None else since0;
            since == Since(history, p, timeout)
  {
  }

  /** The alarm clock just before the timeout is looked at: when the alarm of the new sighting began, if it has not been
      overdue before. */
  ghost function Since(history: seq<Sighting>, p: Sighting, timeout: real): Option<real> {
    if !p.blocked then None
    else if history != [] && Final(history).blocked && Final(history).underlay == p.underlay then
      if Spent(history, timeout) then None else Some(history[AlarmStart(history)].now)
    else Some(p.now)
  }

  /** What one more sighting changes. */
  lemma Extended(history: seq<Sighting>, p: Sighting, timeout: real)
    ensures var h := history + [p];
            var was := history != [] && Final(history).blocked;
            var since := Since(history, p, timeout);
            && (Fires(h, timeout) <==> timeout > 0.0 && since.Some? && p.now - since.value >= timeout)
            && (p.blocked && !Spent(h, timeout) ==> since == Some(h[AlarmStart(h)].now))
            && (p.blocked && Spent(h, timeout) ==> since == None || Fires(h, timeout))
            && Forced(h, timeout) == Forced(history, timeout) + (if Fires(h, timeout) && p.allowed then 1 else 0)
            && Reports(h) == Reports(history) + (if p.blocked == was then []
                                                 else if was then [Unblocked] else [Blocked])
            && Final(h) == p && h != []
  {
    var h := history + [p];
    assert Prefix(h) == history && Final(h) == p;
    assert Continues(h) ==> h[AlarmStart(h)] == history[AlarmStart(history)];
  }

  // ---------------------------------------------------------------- what every history has

  /** Blocked and unblocked strictly alternate, blocked first. */
  lemma {:induction false} ReportsAlternate(h: seq<Sighting>)
    ensures forall i :: 0 <= i < |Reports(h)| ==> Reports(h)[i] == if i % 2 == 0 then Blocked else Unblocked
    ensures |Reports(h)| % 2 == if h != [] && Final(h).blocked then 1 else 0
  {
    if h != [] { ReportsAlternate(Prefix(h)); }
  }

  /** Every poll since the alarm began saw the same connection, blocked. */
  lemma {:induction false} AlarmIsUnbroken(h: seq<Sighting>, k: nat)
    requires h != [] && Final(h).blocked && AlarmStart(h) <= k < |h|
    ensures h[k].blocked && h[k].underlay == Final(h).underlay
  {
    if Continues(h) && k < |h| - 1 { AlarmIsUnbroken(Prefix(h), k); }
  }

  /** A reconnect is forced only after every poll over at least the timeout saw this connection blocked. */
  lemma ForcedOnlyWhenOverdue(h: seq<Sighting>, timeout: real, k: nat)
    requires h != [] && Fires(h, timeout)
    ensures AlarmStart(h) < |h| - 1 && Final(h).now - h[AlarmStart(h)].now >= timeout
    ensures AlarmStart(h) <= k < |h| ==> h[k].blocked && h[k].underlay == Final(h).underlay
  {
    if AlarmStart(h) <= k < |h| { AlarmIsUnbroken(h, k); }
  }

  /** An unbroken stretch belongs to one alarm, and once that is spent it stays spent. */
  lemma {:induction false} SpentStays(h: seq<Sighting>, timeout: real, i: nat)
    requires i < |h| && Spent(h[..i + 1], timeout)
    requires forall k :: i <= k < |h| ==> h[k].blocked && h[k].underlay == h[i].underlay
    ensures Spent(h, timeout)
    decreases |h|
  {
    if i + 1 == |h| {
      assert h[..i + 1] == h;
    } else {
      assert Prefix(h)[..i + 1] == h[..i + 1];
      SpentStays(Prefix(h), timeout, i);
    }
  }

  /** At most one reconnect per alarm and connection: between two of them the connection was seen unblocked, or was
      replaced. */
  lemma OncePerAlarm(h: seq<Sighting>, timeout: real, i: nat)
    requires i < |h| - 1 && Fires(h[..i + 1], timeout) && Fires(h, timeout)
    ensures exists k :: i < k < |h| && !(h[k].blocked && h[k].underlay == h[i].underlay)
  {
    if forall k :: i < k < |h| ==> h[k].blocked && h[k].underlay == h[i].underlay {
      assert h[..i + 1][i].blocked;
      assert Prefix(h)[..i + 1] == h[..i + 1];
      SpentStays(Prefix(h), timeout, i);
    }
  }

  /** And it is forced: an alarm that lasts gets its one chance at the first poll past the timeout. */
  lemma {:induction false} LongAlarmFires(h: seq<Sighting>, timeout: real) returns (i: nat)
    requires h != [] && Overdue(h, timeout)
    ensures AlarmStart(h) < i < |h| && Fires(h[..i + 1], timeout)
    decreases |h|
  {
    if Continues(h) && Spent(Prefix(h), timeout) {
      i := SpentFired(Prefix(h), timeout);
      assert Prefix(h)[..i + 1] == h[..i + 1];
    } else {
      i := |h| - 1;
      assert h[..i + 1] == h;
    }
  }

  lemma {:induction false} SpentFired(h: seq<Sighting>, timeout: real) returns (i: nat)
    requires h != [] && Spent(h, timeout)
    ensures AlarmStart(h) < i < |h| && Fires(h[..i + 1], timeout)
    decreases |h|
  {
    if Continues(h) && Spent(Prefix(h), timeout) {
      i := SpentFired(Prefix(h), timeout);
      assert Prefix(h)[..i + 1] == h[..i + 1];
    } else {
      i := |h| - 1;
      assert h[..i + 1] == h;
    }
  }
}
