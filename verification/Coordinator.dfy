/** The coordinator object: the planning walk and the methods that change the ledger, each tied to the
    functions of module `Settlement`. The internal lock makes every method one atomic step.
 */
module Coordinator {
  import opened Common
  import opened Settlement

  // ---------------------------------------------------------------- the walk, half way

  /** The walk has visited every tag below `p`. */
  ghost predicate Walked(c: Coord, force: bool, p: nat, cs: seq<Command>, run: seq<nat>, blocked: bool,
                         hold: map<nat, nat>)
  {
    && Ascending(run) && (forall t :: t in run ==> AckSafe(c, t) && t < p)
    && (forall i :: 0 <= i < |cs| ==> CommandFits(c, force, cs[i]))
    && (forall i :: 0 <= i < |cs| ==> cs[i].tag < if run == [] then p else run[0])
    && Ordered(cs)
    && CumulativeSound(c, cs)
    && (blocked <==> BlockedBelow(c, p))
    && (blocked ==> run == [])
    && (forall u :: u in c.ledger && u < p && u !in c.reserved && c.ledger[u] in {Success, Nack, Reject} ==>
          (Covered(cs, u) || u in run <==> !Holdable(c, force, u)))
    && (forall u: nat :: HoldOf(hold, u) == HoldOf(c.hold, u) + (if u < p && Holdable(c, force, u) then 1 else 0))
    && Coalesced(c, force, cs)
  }

  ghost predicate NoTrailingAck(cs: seq<Command>) { cs == [] || cs[|cs| - 1].kind != SendAck }

  lemma FlushCumulative(c: Coord, force: bool, p: nat, cs: seq<Command>, run: seq<nat>, hold: map<nat, nat>, i: int,
                        u: nat)
    requires Walked(c, force, p, cs, run, false, hold)
    requires var all := cs + RunCommands(c, force, run);
             0 <= i < |all| && all[i].multiple && u in c.ledger && u <= all[i].tag
    ensures CoveredUpTo(cs + RunCommands(c, force, run), i, u)
  {
    var rs := RunCommands(c, force, run);
    var all := cs + rs;
    if i < |cs| {
      assert CoveredUpTo(cs, i, u);
      var k :| 0 <= k <= i && k < |cs| && u in cs[k].covers;
      assert u in all[k].covers;
    } else {
      RunFrameFits(c, force, run, i - |cs|);
      assert u < p;
      assert !Blocks(c, u);
      assert !Holdable(c, force, u);
      if Covered(cs, u) {
        var k :| 0 <= k < |cs| && u in cs[k].covers;
        assert u in all[k].covers;
      } else {
        assert u in all[i].covers;
      }
    }
  }

  lemma FlushOrdered(c: Coord, force: bool, p: nat, cs: seq<Command>, run: seq<nat>, hold: map<nat, nat>)
    requires Walked(c, force, p, cs, run, false, hold)
    ensures Ordered(cs + RunCommands(c, force, run))
  {
    var rs := RunCommands(c, force, run);
    var all := cs + rs;
    RunFramesOrdered(c, force, run);
    forall i, j | 0 <= i < j < |all| ensures all[i].tag < all[j].covers[0] {
      if j < |cs| {
        assert CommandFits(c, force, cs[j]);
      } else {
        RunFrameFits(c, force, run, j - |cs|);
        assert all[j].covers[0] in run;
      }
    }
  }

  lemma FlushCoalesced(c: Coord, force: bool, p: nat, cs: seq<Command>, run: seq<nat>, hold: map<nat, nat>)
    requires Walked(c, force, p, cs, run, false, hold) && NoTrailingAck(cs)
    ensures Coalesced(c, force, cs + RunCommands(c, force, run))
  {
    var rs := RunCommands(c, force, run);
    var all := cs + rs;
    if Coalescing(c, force) {
      forall i | 0 <= i < |all| - 1 && all[i].kind == SendAck && all[i + 1].kind == SendAck
                 && !BlockedBelow(c, all[i + 1].tag)
        ensures !BelowGap(c, all[i + 1].tag)
      {
        if i >= |cs| {
          RunFrameFits(c, force, run, i + 1 - |cs|);
        } else if i + 1 < |cs| {
          assert all[i] == cs[i] && all[i + 1] == cs[i + 1];
        }
      }
    }
  }

  lemma FlushFits(c: Coord, force: bool, p: nat, cs: seq<Command>, run: seq<nat>, hold: map<nat, nat>)
    requires Walked(c, force, p, cs, run, false, hold)
    ensures var all := cs + RunCommands(c, force, run);
            CumulativeSound(c, all) && forall i :: 0 <= i < |all| ==> CommandFits(c, force, all[i]) && all[i].tag < p
  {
    var all := cs + RunCommands(c, force, run);
    forall i, u | 0 <= i < |all| && all[i].multiple && u in c.ledger && u <= all[i].tag
      ensures CoveredUpTo(all, i, u)
    {
      FlushCumulative(c, force, p, cs, run, hold, i, u);
    }
    forall i | 0 <= i < |all|
      ensures CommandFits(c, force, all[i]) && all[i].tag < p
    {
      if i >= |cs| {
        RunFrameFits(c, force, run, i - |cs|);
      } else {
        assert run == [] || run[0] in run;
      }
    }
  }

  /** Flushing the run keeps the walk's facts and empties the run. */
  lemma Flush(c: Coord, force: bool, p: nat, cs: seq<Command>, run: seq<nat>, hold: map<nat, nat>)
    requires Walked(c, force, p, cs, run, false, hold) && NoTrailingAck(cs)
    ensures Walked(c, force, p, cs + RunCommands(c, force, run), [], false, hold)
  {
    var rs := RunCommands(c, force, run);
    var all := cs + rs;
    FlushOrdered(c, force, p, cs, run, hold);
    FlushCoalesced(c, force, p, cs, run, hold);
    FlushFits(c, force, p, cs, run, hold);
    forall u ensures Covered(all, u) <==> Covered(cs, u) || u in run {
      CoveredAppend(cs, rs, u);
      RunFramesCover(c, force, run, u);
    }
  }

  lemma BlockedBelowStep(c: Coord, p: nat)
    ensures BlockedBelow(c, p + 1) <==> BlockedBelow(c, p) || Blocks(c, p)
  {
  }

  lemma AppendedCumulative(c: Coord, cs: seq<Command>, f: Command)
    requires CumulativeSound(c, cs) && !f.multiple
    ensures CumulativeSound(c, cs + [f])
  {
    var all := cs + [f];
    forall i, u | 0 <= i < |all| && all[i].multiple && u in c.ledger && u <= all[i].tag
      ensures CoveredUpTo(all, i, u)
    {
      assert all[i] == cs[i];
      var k :| 0 <= k <= i && k < |cs| && u in cs[k].covers;
      assert u in all[k].covers;
    }
  }

  lemma AppendedCoalesced(c: Coord, force: bool, cs: seq<Command>, f: Command)
    requires Coalesced(c, force, cs) && (f.kind == SendAck ==> BlockedBelow(c, f.tag))
    ensures Coalesced(c, force, cs + [f])
  {
    var all := cs + [f];
    forall i | 0 <= i < |all| - 1 && all[i].kind == SendAck && all[i + 1].kind == SendAck
      && !BlockedBelow(c, all[i + 1].tag)
      ensures Coalescing(c, force) ==> !BelowGap(c, all[i + 1].tag)
    {
      assert all[i] == cs[i];
      assert i + 1 < |cs| ==> all[i + 1] == cs[i + 1];
    }
  }

  lemma AppendedFit(c: Coord, force: bool, p: nat, cs: seq<Command>, f: Command)
    requires CommandFits(c, force, f) && f.tag == p
    requires forall i :: 0 <= i < |cs| ==> CommandFits(c, force, cs[i]) && cs[i].tag < p
    ensures forall i :: 0 <= i < |cs + [f]| ==> CommandFits(c, force, (cs + [f])[i]) && (cs + [f])[i].tag < p + 1
  {
    forall i | 0 <= i < |cs + [f]| ensures CommandFits(c, force, (cs + [f])[i]) && (cs + [f])[i].tag < p + 1 {
      if i < |cs| { assert (cs + [f])[i] == cs[i]; }
    }
  }

  lemma AppendedOrdered(cs: seq<Command>, f: Command)
    requires Ordered(cs) && |f.covers| > 0 && forall i :: 0 <= i < |cs| ==> cs[i].tag < f.covers[0]
    ensures Ordered(cs + [f])
  {
  }

  lemma AppendCovers(cs: seq<Command>, f: Command, p: nat)
    requires f.covers == [p]
    ensures forall u :: Covered(cs + [f], u) <==> Covered(cs, u) || u == p
  {
    forall u ensures Covered(cs + [f], u) <==> Covered(cs, u) || u == p {
      CoveredAppend(cs, [f], u);
      assert p in [f][0].covers;
    }
  }

  lemma AppendedDecided(c: Coord, force: bool, p: nat, cs: seq<Command>, f: Command, hold: map<nat, nat>)
    requires !Holdable(c, force, p) && forall u :: Covered(cs + [f], u) <==> Covered(cs, u) || u == p
    requires forall u :: u in c.ledger && u < p && u !in c.reserved && c.ledger[u] in {Success, Nack, Reject} ==>
               (Covered(cs, u) <==> !Holdable(c, force, u))
    requires forall u: nat :: HoldOf(hold, u) == HoldOf(c.hold, u) + (if u < p && Holdable(c, force, u) then 1 else 0)
    ensures forall u :: u in c.ledger && u < p + 1 && u !in c.reserved && c.ledger[u] in {Success, Nack, Reject} ==>
              (Covered(cs + [f], u) <==> !Holdable(c, force, u))
    ensures forall u: nat ::
            HoldOf(hold, u) == HoldOf(c.hold, u) + (if u < p + 1 && Holdable(c, force, u) then 1 else 0)
  {
  }

  lemma AppendFrame(c: Coord, force: bool, p: nat, cs: seq<Command>, blocked: bool, hold: map<nat, nat>, f: Command)
    requires Walked(c, force, p, cs, [], blocked, hold)
    requires CommandFits(c, force, f) && f.covers == [p] && f.tag == p && !f.multiple
    requires f.kind == SendAck ==> blocked && !Holdable(c, force, p)
    ensures Walked(c, force, p + 1, cs + [f], [], blocked, hold)
  {
    var all := cs + [f];
    BlockedBelowStep(c, p);
    AppendedCumulative(c, cs, f);
    AppendedCoalesced(c, force, cs, f);
    AppendedOrdered(cs, f);
    assert p in f.covers;
    assert p in c.ledger && p !in c.reserved && !Blocks(c, p) && !Holdable(c, force, p);
    AppendCovers(cs, f, p);
    AppendedFit(c, force, p, cs, f);
    AppendedDecided(c, force, p, cs, f, hold);
  }

  /** An approved delivery with nothing blocking below it joins the run. */
  lemma JoinRun(c: Coord, force: bool, p: nat, cs: seq<Command>, run: seq<nat>, hold: map<nat, nat>)
    requires Walked(c, force, p, cs, run, false, hold) && AckSafe(c, p)
    ensures Walked(c, force, p + 1, cs, run + [p], false, hold)
  {
    BlockedBelowStep(c, p);
    assert !Holdable(c, force, p);
    assert forall t :: t in run + [p] <==> t in run || t == p;
    forall i, j | 0 <= i < j < |run + [p]| ensures (run + [p])[i] < (run + [p])[j] {
      assert run[i] in run;
    }
  }

  /** A tag that is not in the ledger, or one that blocks, emits nothing. */
  lemma PassOver(c: Coord, force: bool, p: nat, cs: seq<Command>, run: seq<nat>, blocked: bool, hold: map<nat, nat>)
    requires Walked(c, force, p, cs, run, blocked, hold)
    requires p !in c.ledger || (Blocks(c, p) && run == [])
    ensures Walked(c, force, p + 1, cs, run, blocked || Blocks(c, p), hold)
  {
    BlockedBelowStep(c, p);
    assert !Holdable(c, force, p);
  }

  lemma HoldBack(c: Coord, force: bool, p: nat, cs: seq<Command>, hold: map<nat, nat>)
    requires Walked(c, force, p, cs, [], true, hold) && AckSafe(c, p)
    requires Coalescing(c, force) && HoldOf(hold, p) < c.maxHold
    ensures Walked(c, force, p + 1, cs, [], true, hold[p := HoldOf(hold, p) + 1])
  {
    BlockedBelowStep(c, p);
    assert Holdable(c, force, p);
    assert !Covered(cs, p);
  }

  lemma WalkStarts(c: Coord, force: bool)
    requires WellFormed(c)
    ensures Walked(c, force, 1, [], [], false, c.hold)
  {
  }

  /** The finished walk is a plan. */
  lemma WalkIsPlan(c: Coord, force: bool, cs: seq<Command>, blocked: bool, hold: map<nat, nat>)
    requires WellFormed(c) && Walked(c, force, c.lastRegistered + 1, cs, [], blocked, hold)
    ensures PlanOk(c, force, cs, hold)
  {
  }

  lemma PlannedIsTracked(c: Coord, force: bool, commands: seq<Command>, hold: map<nat, nat>)
    requires PlanOk(c, force, commands, hold)
    ensures forall t :: Covered(commands, t) ==> t in c.ledger
  {
    forall t | Covered(commands, t) ensures t in c.ledger {
      var k :| 0 <= k < |commands| && t in commands[k].covers;
      assert CommandFits(c, force, commands[k]);
    }
  }

  lemma SettledNothing(c: Coord)
    ensures SettleTags(c, {}) == c
  {
  }

  /** Settling tag by tag is settling them together. */
  lemma SettledMore(c: Coord, tags: set<nat>, tag: nat)
    ensures SettleTags(SettleTags(c, tags), {tag}) == SettleTags(c, tags + {tag})
  {
    LessAndLess(c.ledger, tags, tag);
    LessAndLess(c.hold, tags, tag);
    LessAndLess(c.requeue, tags, tag);
    LessAndLess(c.reserved, tags, tag);
  }

  lemma LessAndLess<V>(m: map<nat, V>, tags: set<nat>, tag: nat)
    ensures m - tags - {tag} == m - (tags + {tag})
  {
  }

  class SettlementCoordinator {
    var generation: nat
    const coalesce: bool
    const maxHold: nat
    const maxPending: nat
    var ledger: map<nat, DeliveryState>
    var hold: map<nat, nat>
    var requeue: map<nat, bool>
    var lastRegistered: nat
    var gapFloor: nat
    var reserved: map<nat, nat>
    var nextBatch: nat
    var prevHighWater: nat

    ghost function View(): Coord
      reads this
    {
      Coord(generation, coalesce, maxHold, maxPending, ledger, hold, requeue, lastRegistered, gapFloor, reserved,
            nextBatch, prevHighWater)
    }

    constructor (coalesce: bool, maxHold: nat, maxPending: nat)
      ensures WellFormed(View())
      ensures View() == Coord(0, coalesce, maxHold, maxPending, map[], map[], map[], 0, 0, map[], 1, 0)
    {
      this.coalesce, this.maxHold, this.maxPending := coalesce, maxHold, maxPending;
      generation, lastRegistered, gapFloor, nextBatch, prevHighWater := 0, 0, 0, 1, 0;
      ledger, hold, requeue, reserved := map[], map[], map[], map[];
    }

    method RegisterDelivery(tag: int) returns (r: Result<()>)
      requires WellFormed(View())
      modifies this
      ensures WellFormed(View())
      ensures match Register(old(View()), tag)
              case Ok(c) => r == Ok(()) && View() == c
              case Err(e) => r == Err(e) && View() == old(View())
    {
      if tag <= 0 { return Err(NotPositive); }
      if tag <= lastRegistered { return Err(NotIncreasing); }
      if maxPending > 0 && |ledger| >= maxPending { return Err(LedgerFull); }
      if tag > lastRegistered + 1 && gapFloor == 0 {
        gapFloor := lastRegistered + 1;
      }
      ledger := ledger[tag := Outstanding];
      lastRegistered := tag;
      return Ok(());
    }

    method Mark(tag: nat, state: DeliveryState, flag: Option<bool>) returns (r: Result<()>)
      requires WellFormed(View())
      modifies this`ledger, this`requeue
      ensures WellFormed(View())
      ensures match SetIntent(old(View()), tag, state, flag)
              case Ok(c) => r == Ok(()) && View() == c
              case Err(e) => r == Err(e) && View() == old(View())
    {
      if tag !in ledger {
        return Err(if tag <= lastRegistered then Contradictory
                   else if tag <= prevHighWater then StaleGeneration else UnknownDelivery);
      }
      if ledger[tag] == state {
        if flag.Some? && !(tag in requeue && requeue[tag] == flag.value) { return Err(Contradictory); }
        return Ok(());
      }
      if !LegalTransition(ledger[tag], state) { return Err(Contradictory); }
      ledger := ledger[tag := state];
      if flag.Some? { requeue := requeue[tag := flag.value]; }
      return Ok(());
    }

    method ReleaseDelivery(tag: nat)
      requires WellFormed(View())
      modifies this`ledger, this`hold, this`requeue
      ensures WellFormed(View()) && View() == Release(old(View()), tag)
    {
      ledger, hold, requeue := ledger - {tag}, hold - {tag}, requeue - {tag};
    }

    /** The planning walk, in ascending tag order. It changes nothing but the hold counts. */
    method PlanLocked(force: bool) returns (commands: seq<Command>)
      requires WellFormed(View())
      modifies this`hold
      ensures WellFormed(View())
      ensures PlanOk(old(View()), force, commands, hold)
    {
      ghost var c := View();
      var run: seq<nat>, blocked := [], false;
      commands := [];
      var tag: nat := 1;
      WalkStarts(c, force);
      while tag <= lastRegistered
        invariant 1 <= tag <= lastRegistered + 1
        invariant c == View().(hold := c.hold)
        invariant Walked(c, force, tag, commands, run, blocked, hold)
        invariant !blocked ==> NoTrailingAck(commands)
      {
        commands, run, blocked := Visit(c, force, tag, commands, run, blocked);
        tag := tag + 1;
      }
      commands := FinishWalk(c, force, commands, run, blocked);
    }

    method FinishWalk(ghost c: Coord, force: bool, commands: seq<Command>, run: seq<nat>, ghost blocked: bool)
      returns (flushed: seq<Command>)
      requires c == View().(hold := c.hold) && WellFormed(c)
      requires Walked(c, force, c.lastRegistered + 1, commands, run, blocked, hold)
      requires !blocked ==> NoTrailingAck(commands)
      ensures PlanOk(c, force, flushed, hold)
    {
      flushed := FlushRun(c, force, c.lastRegistered + 1, commands, run, blocked);
      WalkIsPlan(c, force, flushed, blocked, hold);
    }

    /** One tag of the walk. */
    method Visit(ghost c: Coord, force: bool, tag: nat, commands: seq<Command>, run: seq<nat>, blocked: bool)
      returns (commands': seq<Command>, run': seq<nat>, blocked': bool)
      requires c == View().(hold := c.hold)
      requires Walked(c, force, tag, commands, run, blocked, hold) && (!blocked ==> NoTrailingAck(commands))
      modifies this`hold
      ensures c == View().(hold := c.hold)
      ensures Walked(c, force, tag + 1, commands', run', blocked', hold) && (!blocked' ==> NoTrailingAck(commands'))
    {
      commands', run', blocked' := commands, run, blocked;
      if tag !in ledger {
        PassOver(c, force, tag, commands, run, blocked, hold);
        return;
      }
      if tag !in reserved && ledger[tag] == Success {
        if !blocked {
          JoinRun(c, force, tag, commands, run, hold);
          run' := run + [tag];
        } else {
          commands' := VisitStranded(c, force, tag, commands);
        }
        return;
      }
      commands' := FlushRun(c, force, tag, commands, run, blocked);
      run' := [];
      if tag !in reserved && (ledger[tag] == Nack || ledger[tag] == Reject) {
        var back := if tag in requeue then requeue[tag] else ledger[tag] == Nack;
        var f := Command(if ledger[tag] == Nack then SendNack else SendReject, tag, false, back, [tag]);
        AppendFrame(c, force, tag, commands', blocked, hold, f);
        commands' := commands' + [f];
      } else {
        PassOver(c, force, tag, commands', [], blocked, hold);
        blocked' := true;
      }
    }

    /** An approved delivery stranded behind a blocking one: hold it for a round, or ack it alone. */
    method VisitStranded(ghost c: Coord, force: bool, tag: nat, commands: seq<Command>)
      returns (commands': seq<Command>)
      requires c == View().(hold := c.hold) && AckSafe(c, tag)
      requires Walked(c, force, tag, commands, [], true, hold)
      modifies this`hold
      ensures c == View().(hold := c.hold)
      ensures Walked(c, force, tag + 1, commands', [], true, hold)
    {
      if coalesce && !force && HoldOf(hold, tag) < maxHold {
        HoldBack(c, force, tag, commands, hold);
        hold := hold[tag := HoldOf(hold, tag) + 1];
        return commands;
      }
      AppendFrame(c, force, tag, commands, true, hold, SingleAck(tag));
      return commands + [SingleAck(tag)];
    }

    method FlushRun(ghost c: Coord, force: bool, ghost p: nat, commands: seq<Command>, run: seq<nat>,
                    ghost blocked: bool)
      returns (flushed: seq<Command>)
      requires c == View().(hold := c.hold)
      requires Walked(c, force, p, commands, run, blocked, hold) && (!blocked ==> NoTrailingAck(commands))
      ensures Walked(c, force, p, flushed, [], blocked, hold)
    {
      if |run| == 0 { return commands; }
      Flush(c, force, p, commands, run, hold);
      flushed := commands + RunCommands(Coord(generation, coalesce, maxHold, maxPending, ledger, hold, requeue,
        lastRegistered, gapFloor, reserved, nextBatch, prevHighWater), force, run);
      RunCommandsIgnoreHold(c, View(), force, run);
    }

    /** Plan, and reserve what the plan covers without settling it. */
    method Prepare(force: bool) returns (commands: seq<Command>, batchId: nat)
      requires WellFormed(View())
      modifies this`hold, this`reserved, this`nextBatch
      ensures WellFormed(View())
      ensures old(ledger) == map[] ==> commands == [] && batchId == 0 && View() == old(View())
      ensures old(ledger) != map[] ==> Prepared(old(View()), force, commands, batchId, View())
    {
      if ledger == map[] { return [], 0; }
      ghost var c := View();
      commands := PlanLocked(force);
      PlannedIsTracked(c, force, commands, hold);
      batchId := nextBatch;
      nextBatch := nextBatch + 1;
      reserved := map t | t in ledger.Keys + reserved.Keys && (Covered(commands, t) || t in reserved) ::
                    if Covered(commands, t) then batchId else reserved[t];
    }

    method Commit(batchGeneration: nat, command: Command)
      requires WellFormed(View())
      modifies this
      ensures WellFormed(View()) && View() == CommitCommand(old(View()), batchGeneration, command)
    {
      if batchGeneration != generation { return; }
      Settle(command.covers);
    }

    method Settle(tags: seq<nat>)
      requires WellFormed(View())
      modifies this`ledger, this`hold, this`requeue, this`reserved
      ensures WellFormed(View()) && View() == SettleTags(old(View()), Elements(tags))
    {
      SettledNothing(View());
      for i := 0 to |tags|
        invariant View() == SettleTags(old(View()), Elements(tags[..i]))
      {
        SettledMore(old(View()), Elements(tags[..i]), tags[i]);
        assert Elements(tags[..i + 1]) == Elements(tags[..i]) + {tags[i]};
        ledger, hold, requeue, reserved :=
          ledger - {tags[i]}, hold - {tags[i]}, requeue - {tags[i]}, reserved - {tags[i]};
      }
      assert tags[..|tags|] == tags;
    }

    method Fail(batchGeneration: nat, command: Command) returns (invalidated: bool)
      requires WellFormed(View())
      modifies this
      ensures WellFormed(View()) && (View(), invalidated) == FailCommand(old(View()), batchGeneration, command)
    {
      if batchGeneration != generation { return false; }
      Settle(command.covers);
      if command.kind == SendAck { return false; }
      InvalidateGeneration();
      return true;
    }

    method InvalidateGeneration()
      modifies this
      ensures WellFormed(View()) && View() == Invalidate(old(View()))
    {
      if prevHighWater <= lastRegistered { prevHighWater := lastRegistered; }
      ledger, hold, requeue, reserved := map[], map[], map[], map[];
      lastRegistered, gapFloor, generation := 0, 0, generation + 1;
    }

    /** These frames were never attempted: give their reservations back. */
    method Unreserve(batchGeneration: nat, batchId: nat, commands: seq<Command>)
      requires WellFormed(View())
      modifies this`reserved
      ensures WellFormed(View()) && View() == ReleaseCommands(old(View()), batchGeneration, batchId, commands)
    {
      if batchGeneration != generation { return; }
      for i := 0 to |commands|
        invariant reserved ==
                  (map t | t in old(reserved)
                   && !(old(reserved)[t] == batchId && CoveredUpTo(commands, i - 1, t)) :: old(reserved)[t])
      {
        ghost var before := reserved;
        var covers := commands[i].covers;
        for j := 0 to |covers|
          invariant reserved == (map t | t in before && !(before[t] == batchId && t in covers[..j]) :: before[t])
        {
          if covers[j] in reserved && reserved[covers[j]] == batchId { reserved := reserved - {covers[j]}; }
          assert covers[..j + 1] == covers[..j] + [covers[j]];
        }
        assert covers[..|covers|] == covers;
        forall t ensures CoveredUpTo(commands, i, t) <==> CoveredUpTo(commands, i - 1, t) || t in commands[i].covers {}
      }
    }
  }

  lemma RunCommandsIgnoreHold(c: Coord, d: Coord, force: bool, run: seq<nat>)
    requires Ascending(run) && c.gapFloor == d.gapFloor && c.coalesce == d.coalesce
    ensures RunCommands(c, force, run) == RunCommands(d, force, run)
  {
    SafePrefixIgnoresHold(c, d, run);
  }

  lemma SafePrefixIgnoresHold(c: Coord, d: Coord, run: seq<nat>)
    requires Ascending(run) && c.gapFloor == d.gapFloor
    ensures SafePrefix(c, run) == SafePrefix(d, run)
  {
    if |run| > 0 { SafePrefixIgnoresHold(c, d, run[..|run| - 1]); }
  }
}
