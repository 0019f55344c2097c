/** Every run of the plan/emit/commit protocol against a broker channel.

    The broker side is the channel's set of unacknowledged delivery tags; `basic.ack` with `multiple` settles
    every unacknowledged tag up to its own. Handlers, flushes (any number at once) and the channel interleave
    freely; an emitted frame may land or be lost, and a frame that landed may still be reported as failed.
    The emit callables belong to the channel a batch was planned for, so a frame of an older channel can only
    be lost. Anybody may settle a delivery past the coordinator at any time, and release it then or later. A frame
    that names such a delivery draws a channel error: then it is lost, and `Reconnect` follows; that it settles what
    else it covers is a run of the model too.
 */
module SettlementRuns {
  import opened Common
  import opened Settlement

  /** A prepared batch: frames still to send, and a frame that reached the broker but is not yet resolved. */
  datatype Batch = Batch(generation: nat, channel: nat, rest: seq<Command>, landed: Option<Command>)

  /** `current` are the tags registered in the coordinator's present generation, `succeeded` those a handler
      approved, `refused` those it failed, cancelled, nacked or rejected, `elsewhere` those settled outside the
      coordinator. All tag sets are of the present channel. */
  datatype State = State(
    c: Coord,
    channel: nat,
    delivered: nat,
    registered: set<nat>,
    current: set<nat>,
    unacked: set<nat>,
    acked: set<nat>,
    succeeded: set<nat>,
    refused: set<nat>,
    elsewhere: set<nat>,
    batches: map<nat, Batch>)

  datatype Step =
    | Deliver
    | RegisterTag(tag: nat)
    | Intent(tag: nat, state: DeliveryState, flag: Option<bool>)
    | SettleElsewhere(tag: nat)
    | ReleaseTag(tag: nat)
    | PrepareBatch(force: bool, commands: seq<Command>, next: Coord)
    | Land(id: nat)
    | CommitLanded(id: nat)
    | FailLanded(id: nat)
    | FailLost(id: nat)
    | Reconnect

  function Init(c: Coord): State { State(c, 0, 0, {}, {}, {}, {}, {}, {}, {}, map[]) }

  predicate Refusal(state: DeliveryState) { state in {Nack, Reject, Failed, Cancelled} }

  /** What the broker settles when it receives a frame. */
  function Swept(unacked: set<nat>, f: Command): set<nat> {
    if f.multiple then set u | u in unacked && u <= f.tag else set u | u in unacked && u == f.tag
  }

  ghost predicate Enabled(s: State, step: Step) {
    match step
    case Deliver => true
    case RegisterTag(tag) => (tag in s.unacked || tag in s.elsewhere) && tag !in s.registered
    case Intent(_, _, _) => true
    case SettleElsewhere(tag) => tag in s.unacked
    case ReleaseTag(tag) => tag !in s.unacked
    case PrepareBatch(force, commands, next) => s.c.ledger != map[]
      && Prepared(s.c, force, commands, s.c.nextBatch, next)
    case Land(id) => Live(s, id) && s.batches[id].landed == None && s.batches[id].rest != []
    case CommitLanded(id) => id in s.batches && s.batches[id].landed.Some?
    case FailLanded(id) => id in s.batches && s.batches[id].landed.Some?
    case FailLost(id) => id in s.batches && s.batches[id].landed == None && s.batches[id].rest != []
    case Reconnect => true
  }

  /** `emit_batch` after a frame failed: fail it, give the later frames back, stop. */
  function AfterFailure(s: State, id: nat, f: Command, rest: seq<Command>): State
    requires id in s.batches
  {
    var b := s.batches[id];
    var (c, invalidated) := FailCommand(s.c, b.generation, f);
    s.(c := if invalidated then c else ReleaseCommands(c, b.generation, id, rest),
       current := if invalidated then {} else s.current,
       batches := s.batches - {id})
  }

  ghost function Apply(s: State, step: Step): State
    requires Enabled(s, step)
  {
    match step
    case Deliver => s.(delivered := s.delivered + 1, unacked := s.unacked + {s.delivered + 1})
    case RegisterTag(tag) => (
      match Register(s.c, tag)
      case Ok(c) => s.(c := c, registered := s.registered + {tag}, current := s.current + {tag})
      case Err(_) => s)
    case Intent(tag, state, flag) => (
      match SetIntent(s.c, tag, state, flag)
      case Ok(c) => s.(c := c,
                       succeeded := if state == Success then s.succeeded + {tag} else s.succeeded,
                       refused := if Refusal(state) then s.refused + {tag} else s.refused)
      case Err(_) => s)
    case SettleElsewhere(tag) =>
      s.(unacked := s.unacked - {tag}, acked := s.acked + {tag}, elsewhere := s.elsewhere + {tag})
    case ReleaseTag(tag) => s.(c := Release(s.c, tag))
    case PrepareBatch(_, commands, next) =>
      s.(c := next, batches := s.batches[s.c.nextBatch := Batch(s.c.generation, s.channel, commands, None)])
    case Land(id) =>
      var b := s.batches[id];
      var f := b.rest[0];
      var swept := Swept(s.unacked, f);
      s.(unacked := s.unacked - swept,
         acked := if f.kind == SendAck then s.acked + swept else s.acked,
         batches := s.batches[id := b.(rest := b.rest[1..], landed := Some(f))])
    case CommitLanded(id) =>
      var b := s.batches[id];
      s.(c := CommitCommand(s.c, b.generation, b.landed.value), batches := s.batches[id := b.(landed := None)])
    case FailLanded(id) => AfterFailure(s, id, s.batches[id].landed.value, s.batches[id].rest)
    case FailLost(id) => AfterFailure(s, id, s.batches[id].rest[0], s.batches[id].rest[1..])
    case Reconnect =>
      State(Invalidate(s.c), s.channel + 1, 0, {}, {}, {}, {}, {}, {}, {}, s.batches)
  }

  // ---------------------------------------------------------------- invariant

  predicate Live(s: State, id: nat) { id in s.batches && s.batches[id].channel == s.channel }

  predicate Waiting(s: State, id: nat, tag: nat) { Live(s, id) && Covered(s.batches[id].rest, tag) }

  predicate Arrived(s: State, id: nat, tag: nat) {
    Live(s, id) && s.batches[id].landed.Some? && tag in s.batches[id].landed.value.covers
  }

  /** Approved, no longer tracked, and in no batch: a failed ack left it for the broker. */
  ghost predicate Loose(s: State, tag: nat) {
    tag in s.succeeded && tag !in s.c.ledger && forall id :: !Waiting(s, id, tag)
  }

  ghost predicate FrameOk(s: State, f: Command) {
    && Ascending(f.covers) && |f.covers| >= 1 && f.covers[|f.covers| - 1] == f.tag
    && (!f.multiple ==> f.covers == [f.tag])
    && (f.kind == SendAck ==> forall t :: t in f.covers ==> t in s.succeeded)
    && (f.kind != SendAck ==> !f.multiple)
    && (f.multiple ==> forall u :: 1 <= u <= f.tag ==> u in s.registered)
  }

  /** Registered, and unsettled unless somebody settled it past the coordinator. */
  predicate Pending(s: State, tag: nat) { tag in s.registered && (tag in s.unacked <==> tag !in s.elsewhere) }

  /** When the k-th waiting frame is cumulative, the broker will find below it only tags of frames sent
      before, and loose ones. */
  ghost predicate SweepsOnlyApproved(s: State, id: nat)
    requires id in s.batches
  {
    forall k, u :: 0 <= k < |s.batches[id].rest| && s.batches[id].rest[k].multiple && u in s.unacked
                   && u <= s.batches[id].rest[k].tag
      ==> CoveredUpTo(s.batches[id].rest, k, u) || Loose(s, u)
  }

  ghost predicate BatchOk(s: State, id: nat)
    requires id in s.batches
  {
    var b := s.batches[id];
    && (forall k :: 0 <= k < |b.rest| ==> FrameOk(s, b.rest[k]))
    && Ordered(b.rest)
    && (forall t :: Covered(b.rest, t) ==> Pending(s, t))
    && (b.landed.Some? ==>
        forall t :: t in b.landed.value.covers ==> t !in s.unacked && t in s.registered && !Covered(b.rest, t))
    && (if b.generation == s.c.generation
        then forall t :: Waiting(s, id, t) || Arrived(s, id, t) ==> t in s.c.reserved && s.c.reserved[t] == id
        else forall t :: Waiting(s, id, t) || Arrived(s, id, t) ==> t !in s.current)
    && SweepsOnlyApproved(s, id)
  }

  ghost predicate LedgerOk(s: State) {
    && WellFormed(s.c) && s.c.lastRegistered <= s.delivered
    && s.c.ledger.Keys <= s.current <= s.registered
    && (forall t :: t in s.registered || t in s.unacked ==> 1 <= t <= s.delivered)
    && (forall t :: t in s.c.ledger && t !in s.c.reserved ==> Pending(s, t))
    && (forall t :: t in s.c.ledger && s.c.ledger[t] == Success ==> t in s.succeeded)
    && (forall t :: t in s.c.reserved ==> t in s.registered && (t in s.unacked ==> t in s.c.ledger))
    && (forall t :: 1 <= t <= s.c.lastRegistered && BelowGap(s.c, t) ==>
          t in s.current && (t in s.unacked ==> t in s.c.ledger || t in s.succeeded))
  }

  ghost predicate ReservedOk(s: State) {
    && (forall t :: t in s.c.reserved ==>
          Waiting(s, s.c.reserved[t], t) || Arrived(s, s.c.reserved[t], t))
    && (forall t :: t in s.c.reserved ==>
        s.c.reserved[t] in s.batches && s.batches[s.c.reserved[t]].generation == s.c.generation)
    && (forall id :: id in s.batches ==>
        id < s.c.nextBatch && s.batches[id].generation <= s.c.generation && s.batches[id].channel <= s.channel)
    && (forall id :: id in s.batches && !Live(s, id) ==> s.batches[id].generation < s.c.generation)
    && (forall i, j, t :: Waiting(s, i, t) && Waiting(s, j, t) ==> i == j)
  }

  /** No delivery is acknowledged to the broker unless its handler approved it or it was settled elsewhere. */
  ghost predicate OnlyApprovedAcked(s: State) {
    && s.acked <= s.succeeded + s.elsewhere && s.elsewhere <= s.acked && s.acked !! s.unacked
    && forall t :: t in s.acked ==> t <= s.delivered
  }

  ghost predicate Inv(s: State) {
    && LedgerOk(s)
    && ReservedOk(s)
    && (forall id :: Live(s, id) ==> BatchOk(s, id))
    && OnlyApprovedAcked(s)
  }

  // ---------------------------------------------------------------- every step keeps the invariant

  /** What a step away from the batches may do without disturbing a batch: tags that leave the broker's
      unacknowledged set were settled elsewhere, and tags that join any other set are newly registered. */
  ghost predicate Calm(s: State, s': State) {
    && s'.batches == s.batches && s'.channel == s.channel
    && s.succeeded <= s'.succeeded && s.registered <= s'.registered
    && s'.c.generation == s.c.generation && s'.c.reserved == s.c.reserved
    && s.elsewhere <= s'.elsewhere && s'.elsewhere !! s'.unacked
    && (forall t :: t in s.unacked && t !in s'.unacked ==> t in s'.elsewhere)
    && (forall t :: t in s.registered && t in s'.unacked ==> t in s.unacked)
    && (forall t :: t in s.registered && t in s'.current ==> t in s.current)
    && (forall t :: t in s.registered && t in s'.c.ledger ==> t in s.c.ledger)
  }

  lemma CalmLoose(s: State, s': State, u: nat)
    requires Calm(s, s') && Loose(s, u) && u in s.registered
    ensures Loose(s', u)
  {
    forall j ensures !Waiting(s', j, u) { assert !Waiting(s, j, u); }
  }

  lemma CalmBatch(s: State, s': State, id: nat)
    requires Inv(s) && Calm(s, s') && Live(s', id) && LedgerOk(s')
    ensures BatchOk(s', id)
  {
    var b := s.batches[id];
    assert Live(s, id) && BatchOk(s, id);
    assert forall t :: Waiting(s', id, t) <==> Waiting(s, id, t);
    assert forall t :: Arrived(s', id, t) <==> Arrived(s, id, t);
    forall t | Covered(b.rest, t) ensures Pending(s', t) { assert Pending(s, t); }
    forall t | Arrived(s', id, t) ensures t !in s'.unacked { assert Arrived(s, id, t); }
    forall k, u | 0 <= k < |b.rest| && b.rest[k].multiple && u in s'.unacked && u <= b.rest[k].tag
      ensures CoveredUpTo(b.rest, k, u) || Loose(s', u)
    {
      assert FrameOk(s, b.rest[k]) && u in s.registered;
      if !CoveredUpTo(b.rest, k, u) { CalmLoose(s, s', u); }
    }
  }

  lemma CalmReserved(s: State, s': State)
    requires Inv(s) && Calm(s, s') && s'.c.nextBatch == s.c.nextBatch
    ensures ReservedOk(s')
  {
    assert forall id, t :: Waiting(s', id, t) <==> Waiting(s, id, t);
    assert forall id, t :: Arrived(s', id, t) <==> Arrived(s, id, t);
    assert forall id :: Live(s', id) <==> Live(s, id);
  }

  lemma CalmKeeps(s: State, s': State)
    requires Inv(s) && Calm(s, s') && s'.c.nextBatch == s.c.nextBatch
    requires LedgerOk(s') && OnlyApprovedAcked(s')
    ensures Inv(s')
  {
    CalmReserved(s, s');
    forall id | Live(s', id) ensures BatchOk(s', id) { CalmBatch(s, s', id); }
  }

  lemma DeliverKeeps(s: State)
    requires Inv(s)
    ensures Inv(Apply(s, Deliver))
  {
    CalmKeeps(s, Apply(s, Deliver));
  }

  lemma RegisterKeeps(s: State, tag: nat)
    requires Inv(s) && Enabled(s, RegisterTag(tag))
    ensures Inv(Apply(s, RegisterTag(tag)))
  {
    var s' := Apply(s, RegisterTag(tag));
    if Register(s.c, tag).Ok? {
      RegisterLedger(s, tag);
      CalmKeeps(s, s');
    }
  }

  lemma RegisterLedger(s: State, tag: nat)
    requires LedgerOk(s) && OnlyApprovedAcked(s) && Enabled(s, RegisterTag(tag)) && Register(s.c, tag).Ok?
    ensures LedgerOk(Apply(s, RegisterTag(tag)))
  {
    var s' := Apply(s, RegisterTag(tag));
    forall t | t in s'.c.ledger && t !in s'.c.reserved ensures Pending(s', t) {
      assert t != tag ==> Pending(s, t);
    }
    forall t | 1 <= t <= s'.c.lastRegistered && BelowGap(s'.c, t)
      ensures t in s'.current && (t in s'.unacked ==> t in s'.c.ledger || t in s'.succeeded)
    {
      if t != tag { assert BelowGap(s.c, t); }
    }
  }

  lemma IntentKeeps(s: State, tag: nat, state: DeliveryState, flag: Option<bool>)
    requires Inv(s)
    ensures Inv(Apply(s, Intent(tag, state, flag)))
  {
    if SetIntent(s.c, tag, state, flag).Ok? {
      IntentLedger(s, tag, state, flag);
      IntentIsCalm(s, tag, state, flag);
      CalmKeeps(s, Apply(s, Intent(tag, state, flag)));
    }
  }

  lemma IntentIsCalm(s: State, tag: nat, state: DeliveryState, flag: Option<bool>)
    requires OnlyApprovedAcked(s) && SetIntent(s.c, tag, state, flag).Ok?
    ensures var s' := Apply(s, Intent(tag, state, flag));
            Calm(s, s') && s'.c.nextBatch == s.c.nextBatch && OnlyApprovedAcked(s')
  {
    IntentsAreMonotone(s.c, tag, state, flag);
  }

  lemma IntentLedger(s: State, tag: nat, state: DeliveryState, flag: Option<bool>)
    requires LedgerOk(s) && SetIntent(s.c, tag, state, flag).Ok?
    ensures LedgerOk(Apply(s, Intent(tag, state, flag)))
  {
    IntentsAreMonotone(s.c, tag, state, flag);
    var s' := Apply(s, Intent(tag, state, flag));
    forall t | t in s'.c.ledger && t !in s'.c.reserved ensures Pending(s', t) { assert Pending(s, t); }
  }

  lemma SettleElsewhereKeeps(s: State, tag: nat)
    requires Inv(s) && Enabled(s, SettleElsewhere(tag))
    ensures Inv(Apply(s, SettleElsewhere(tag)))
  {
    CalmKeeps(s, Apply(s, SettleElsewhere(tag)));
  }

  lemma ReleaseKeeps(s: State, tag: nat)
    requires Inv(s) && Enabled(s, ReleaseTag(tag))
    ensures Inv(Apply(s, ReleaseTag(tag)))
  {
    ReleaseLedger(s, tag);
    CalmKeeps(s, Apply(s, ReleaseTag(tag)));
  }

  lemma ReleaseLedger(s: State, tag: nat)
    requires LedgerOk(s) && tag !in s.unacked
    ensures LedgerOk(Apply(s, ReleaseTag(tag)))
  {
    var s' := Apply(s, ReleaseTag(tag));
    forall t | t in s'.c.ledger && t !in s'.c.reserved ensures Pending(s', t) { assert Pending(s, t); }
  }

  lemma ReconnectKeeps(s: State)
    requires Inv(s)
    ensures Inv(Apply(s, Reconnect))
  {
    var s' := Apply(s, Reconnect);
    forall id | id in s'.batches ensures !Live(s', id) {}
  }

  // ---------------------------------------------------------------- resolving a batch

  /** The broker is untouched, and nothing new is tracked or waits. */
  ghost predicate Shrinks(s: State, s': State) {
    && s'.channel == s.channel && s'.delivered == s.delivered && s'.registered == s.registered
    && s'.unacked == s.unacked && s'.acked == s.acked && s'.succeeded == s.succeeded && s'.elsewhere == s.elsewhere
    && s'.c.ledger.Keys <= s.c.ledger.Keys && s'.current <= s.current
    && (forall j :: j in s'.batches ==>
          j in s.batches && s'.batches[j] == s.batches[j].(landed := s'.batches[j].landed)
          && (s'.batches[j].landed == None || s'.batches[j].landed == s.batches[j].landed))
  }

  lemma ShrinksLoose(s: State, s': State, u: nat)
    requires Shrinks(s, s') && Loose(s, u)
    ensures Loose(s', u)
  {
    forall j ensures !Waiting(s', j, u) { assert !Waiting(s, j, u); }
  }

  lemma ShrinksBatch(s: State, s': State, id: nat)
    requires Inv(s) && Shrinks(s, s') && Live(s', id)
    requires s.batches[id].generation == s'.c.generation ==> s.c.generation == s'.c.generation
    requires s.batches[id].generation == s'.c.generation ==>
               forall t :: Waiting(s', id, t) || Arrived(s', id, t) ==>
                 t in s.c.reserved ==> t in s'.c.reserved && s'.c.reserved[t] == s.c.reserved[t]
    requires s.batches[id].generation != s'.c.generation && s.batches[id].generation == s.c.generation ==>
               s'.current == {}
    ensures BatchOk(s', id)
  {
    var b := s'.batches[id];
    assert Live(s, id) && BatchOk(s, id);
    assert forall t :: Waiting(s', id, t) ==> Waiting(s, id, t);
    assert forall t :: Arrived(s', id, t) ==> Arrived(s, id, t);
    forall k, u | 0 <= k < |b.rest| && b.rest[k].multiple && u in s'.unacked && u <= b.rest[k].tag
      ensures CoveredUpTo(b.rest, k, u) || Loose(s', u)
    {
      if !CoveredUpTo(b.rest, k, u) { ShrinksLoose(s, s', u); }
    }
    forall k | 0 <= k < |b.rest| ensures FrameOk(s', b.rest[k]) { assert FrameOk(s, b.rest[k]); }
  }

  lemma CommitLedger(s: State, id: nat)
    requires LedgerOk(s) && Enabled(s, CommitLanded(id))
    requires s.batches[id].generation == s.c.generation ==>
               forall t :: t in s.batches[id].landed.value.covers ==> t !in s.unacked
    ensures LedgerOk(Apply(s, CommitLanded(id)))
  {
  }

  /** A committed frame takes no other frame's reservation. */
  lemma CommitSpares(s: State, id: nat, j: nat, t: nat)
    requires Inv(s) && Enabled(s, CommitLanded(id)) && Live(Apply(s, CommitLanded(id)), j)
    requires Waiting(Apply(s, CommitLanded(id)), j, t) || Arrived(Apply(s, CommitLanded(id)), j, t)
    requires s.batches[j].generation == s.c.generation
    ensures t in s.c.reserved && t in Apply(s, CommitLanded(id)).c.reserved
  {
    assert Waiting(s, j, t) || Arrived(s, j, t);
    assert BatchOk(s, j);
    if s.batches[id].generation == s.c.generation && t in s.batches[id].landed.value.covers {
      assert Live(s, id);
      assert Arrived(s, id, t);
    }
  }

  lemma CommitKeeps(s: State, id: nat)
    requires Inv(s) && Enabled(s, CommitLanded(id))
    ensures Inv(Apply(s, CommitLanded(id)))
  {
    var s' := Apply(s, CommitLanded(id));
    assert s.batches[id].generation == s.c.generation ==> Live(s, id) && BatchOk(s, id);
    CommitLedger(s, id);
    CommitReserved(s, id);
    forall j | Live(s', j) ensures BatchOk(s', j) { CommitBatch(s, id, j); }
  }

  lemma CommitBatch(s: State, id: nat, j: nat)
    requires Inv(s) && Enabled(s, CommitLanded(id)) && Live(Apply(s, CommitLanded(id)), j)
    ensures BatchOk(Apply(s, CommitLanded(id)), j)
  {
    var s' := Apply(s, CommitLanded(id));
    assert s.batches[id].generation == s.c.generation ==> Live(s, id) && BatchOk(s, id);
    if s.batches[j].generation == s.c.generation {
      forall t | Waiting(s', j, t) || Arrived(s', j, t) ensures t in s'.c.reserved { CommitSpares(s, id, j, t); }
    }
    ShrinksBatch(s, s', j);
  }

  lemma CommitReserved(s: State, id: nat)
    requires Inv(s) && Enabled(s, CommitLanded(id))
    ensures ReservedOk(Apply(s, CommitLanded(id)))
  {
    var s' := Apply(s, CommitLanded(id));
    assert forall j, t :: Waiting(s', j, t) <==> Waiting(s, j, t);
    assert forall j :: Live(s', j) <==> Live(s, j);
    forall t | t in s'.c.reserved ensures Waiting(s', s'.c.reserved[t], t) || Arrived(s', s'.c.reserved[t], t) {
      var j := s.c.reserved[t];
      assert Waiting(s, j, t) || Arrived(s, j, t);
      if j != id && Arrived(s, j, t) { assert Arrived(s', j, t); }
    }
  }

  /** A reservation that survives a failure belongs to another batch. */
  lemma FailureDrops(s: State, id: nat, f: Command, rest: seq<Command>, t: nat)
    requires ReservedOk(s) && id in s.batches && t in AfterFailure(s, id, f, rest).c.reserved
    requires Waiting(s, id, t) || Arrived(s, id, t) ==> t in f.covers || Covered(rest, t)
    ensures var s' := AfterFailure(s, id, f, rest);
            && t in s.c.reserved && s'.c.reserved[t] == s.c.reserved[t] != id && s'.c.generation == s.c.generation
  {
    FailureForgets(s, id, f, rest, t);
    assert Waiting(s, s.c.reserved[t], t) || Arrived(s, s.c.reserved[t], t);
  }

  /** What a failure takes: everything if it invalidates, and otherwise the failed tags and this batch's own. */
  lemma FailureForgets(s: State, id: nat, f: Command, rest: seq<Command>, t: nat)
    requires id in s.batches && t in AfterFailure(s, id, f, rest).c.reserved
    ensures var s' := AfterFailure(s, id, f, rest);
            && t in s.c.reserved && s'.c.reserved[t] == s.c.reserved[t] && s'.c.generation == s.c.generation
            && (s.batches[id].generation == s.c.generation ==>
                  t !in f.covers && !(s.c.reserved[t] == id && Covered(rest, t)))
  {
  }

  lemma FailureReserved(s: State, id: nat, f: Command, rest: seq<Command>)
    requires ReservedOk(s) && id in s.batches
    requires forall t :: Waiting(s, id, t) || Arrived(s, id, t) ==> t in f.covers || Covered(rest, t)
    ensures ReservedOk(AfterFailure(s, id, f, rest))
  {
    var s' := AfterFailure(s, id, f, rest);
    assert forall j, t :: j != id ==> (Waiting(s', j, t) <==> Waiting(s, j, t));
    assert forall j, t :: j != id ==> (Arrived(s', j, t) <==> Arrived(s, j, t));
    forall t | t in s'.c.reserved
      ensures var j := s'.c.reserved[t];
              (Waiting(s', j, t) || Arrived(s', j, t)) && j in s'.batches && s'.batches[j].generation == s'.c.generation
    {
      FailureDrops(s, id, f, rest, t);
      var j := s.c.reserved[t];
      assert Waiting(s, j, t) || Arrived(s, j, t);
    }
  }

  lemma FailureLedger(s: State, id: nat, f: Command, rest: seq<Command>)
    requires LedgerOk(s) && id in s.batches && (s.batches[id].generation == s.c.generation ==> Live(s, id))
    requires Live(s, id) ==> forall t :: Covered(rest, t) ==> Pending(s, t)
    requires Live(s, id) ==> forall t :: t in f.covers && t in s.unacked && f.kind == SendAck ==> t in s.succeeded
    ensures LedgerOk(AfterFailure(s, id, f, rest))
  {
    if s.batches[id].generation == s.c.generation && f.kind == SendAck {
      FailedAckLedger(s, id, f, rest);
    } else {
      OtherFailureLedger(s, id, f, rest);
    }
  }

  lemma OtherFailureLedger(s: State, id: nat, f: Command, rest: seq<Command>)
    requires LedgerOk(s) && id in s.batches && (s.batches[id].generation != s.c.generation || f.kind != SendAck)
    ensures LedgerOk(AfterFailure(s, id, f, rest))
  {
  }

  /** A failed ack leaves its tags to the broker, and gives the tags behind it back. */
  lemma FailedAckLedger(s: State, id: nat, f: Command, rest: seq<Command>)
    requires LedgerOk(s) && id in s.batches && s.batches[id].generation == s.c.generation && f.kind == SendAck
    requires forall t :: Covered(rest, t) ==> Pending(s, t)
    requires forall t :: t in f.covers && t in s.unacked ==> t in s.succeeded
    ensures LedgerOk(AfterFailure(s, id, f, rest))
  {
    var s' := AfterFailure(s, id, f, rest);
    assert s'.c.ledger == s.c.ledger - Elements(f.covers);
    forall t | t in s'.c.ledger && t !in s'.c.reserved ensures Pending(s', t) {
      assert t in s.c.reserved ==> Covered(rest, t);
      assert Pending(s, t);
    }
    forall t | t in s'.c.reserved ensures t in s'.registered && (t in s'.unacked ==> t in s'.c.ledger) {
      assert t in s.c.reserved && t !in f.covers;
    }
    forall t | 1 <= t <= s'.c.lastRegistered && BelowGap(s'.c, t)
      ensures t in s'.current && (t in s'.unacked ==> t in s'.c.ledger || t in s'.succeeded)
    {
      assert BelowGap(s.c, t);
    }
  }

  lemma FailureKeeps(s: State, id: nat, f: Command, rest: seq<Command>)
    requires Inv(s) && id in s.batches
    requires forall t :: Waiting(s, id, t) || Arrived(s, id, t) ==> t in f.covers || Covered(rest, t)
    requires Live(s, id) ==> forall t :: t in f.covers || Covered(rest, t) ==> Waiting(s, id, t) || Arrived(s, id, t)
    requires Live(s, id) ==> forall t :: Covered(rest, t) ==> Pending(s, t)
    requires Live(s, id) ==> forall t :: t in f.covers && t in s.unacked && f.kind == SendAck ==> t in s.succeeded
    ensures Inv(AfterFailure(s, id, f, rest))
  {
    var s' := AfterFailure(s, id, f, rest);
    FailureReserved(s, id, f, rest);
    FailureLedger(s, id, f, rest);
    forall j | Live(s', j) ensures BatchOk(s', j) {
      assert Live(s, j) && BatchOk(s, j);
      forall t | Waiting(s', j, t) || Arrived(s', j, t)
        ensures t in s.c.reserved && s.batches[j].generation == s'.c.generation ==>
                  t in s'.c.reserved && s'.c.reserved[t] == s.c.reserved[t]
      {
        assert Waiting(s, j, t) || Arrived(s, j, t);
        if s.batches[id].generation == s.c.generation == s.batches[j].generation && t in f.covers {
          assert Live(s, id) && BatchOk(s, id);
        }
      }
      ShrinksBatch(s, s', j);
    }
  }

  lemma FailLostKeeps(s: State, id: nat)
    requires Inv(s) && Enabled(s, FailLost(id))
    ensures Inv(Apply(s, FailLost(id)))
  {
    var rest := s.batches[id].rest;
    forall t ensures Covered(rest, t) <==> t in rest[0].covers || Covered(rest[1..], t) { CoveredHead(rest, t); }
    if Live(s, id) {
      assert BatchOk(s, id) && FrameOk(s, rest[0]);
      forall t | Covered(rest, t) ensures Waiting(s, id, t) {}
    }
    FailureKeeps(s, id, rest[0], rest[1..]);
  }

  lemma FailLandedKeeps(s: State, id: nat)
    requires Inv(s) && Enabled(s, FailLanded(id))
    ensures Inv(Apply(s, FailLanded(id)))
  {
    var b := s.batches[id];
    if Live(s, id) {
      assert BatchOk(s, id);
      forall t | t in b.landed.value.covers ensures Arrived(s, id, t) {}
      forall t | Covered(b.rest, t) ensures Waiting(s, id, t) {}
    }
    FailureKeeps(s, id, b.landed.value, b.rest);
  }

  lemma CoveredHead(rest: seq<Command>, tag: nat)
    requires rest != []
    ensures Covered(rest, tag) <==> tag in rest[0].covers || Covered(rest[1..], tag)
  {
    CoveredAppend(rest[..1], rest[1..], tag);
    assert rest == rest[..1] + rest[1..];
    if tag in rest[0].covers { assert tag in rest[..1][0].covers; }
  }

  lemma CoveredUpToTail(rest: seq<Command>, k: nat, tag: nat)
    requires rest != [] && CoveredUpTo(rest, k + 1, tag) && tag !in rest[0].covers
    ensures CoveredUpTo(rest[1..], k, tag)
  {
    var i :| 0 <= i <= k + 1 && i < |rest| && tag in rest[i].covers;
    assert tag in rest[1..][i - 1].covers;
  }

  // ---------------------------------------------------------------- a frame reaches the broker

  /** What the broker settles on receiving the head frame: exactly the frame's own tags that nobody settled before,
      and loose ones. */
  lemma LandingSweeps(s: State, id: nat)
    requires Inv(s) && Enabled(s, Land(id))
    ensures var f := s.batches[id].rest[0];
            && (forall u :: u in f.covers ==> (u in Swept(s.unacked, f) <==> u !in s.elsewhere))
            && (forall u :: u in Swept(s.unacked, f) ==> u in f.covers || Loose(s, u))
            && f.tag in f.covers
  {
    var rest := s.batches[id].rest;
    var f := rest[0];
    assert BatchOk(s, id) && FrameOk(s, f);
    forall u | u in f.covers ensures u in Swept(s.unacked, f) <==> u !in s.elsewhere {
      CoveredHead(rest, u);
      assert Covered(rest, u) && Pending(s, u);
    }
    assert f.tag in f.covers;
    forall u | u in Swept(s.unacked, f) ensures u in f.covers || Loose(s, u) {
      if f.multiple { assert CoveredUpTo(rest, 0, u) || Loose(s, u); }
    }
  }

  lemma LandLoose(s: State, id: nat, u: nat)
    requires Inv(s) && Enabled(s, Land(id)) && Loose(s, u)
    ensures Loose(Apply(s, Land(id)), u)
  {
    var s' := Apply(s, Land(id));
    forall j ensures !Waiting(s', j, u) {
      assert !Waiting(s, j, u);
      if j == id { CoveredHead(s.batches[id].rest, u); }
    }
  }

  lemma LandOther(s: State, id: nat, j: nat)
    requires Inv(s) && Enabled(s, Land(id)) && Live(s, j) && j != id
    ensures BatchOk(Apply(s, Land(id)), j)
  {
    var s' := Apply(s, Land(id));
    var f, b := s.batches[id].rest[0], s.batches[j];
    LandingSweeps(s, id);
    assert BatchOk(s, j);
    assert forall t :: Waiting(s', j, t) <==> Waiting(s, j, t);
    assert forall t :: Arrived(s', j, t) <==> Arrived(s, j, t);
    forall t | Covered(b.rest, t) ensures Pending(s', t) {
      assert Waiting(s, j, t) && Pending(s, t);
      if t in f.covers {
        CoveredHead(s.batches[id].rest, t);
        assert Waiting(s, id, t);
      }
    }
    forall k, u | 0 <= k < |b.rest| && b.rest[k].multiple && u in s'.unacked && u <= b.rest[k].tag
      ensures CoveredUpTo(b.rest, k, u) || Loose(s', u)
    {
      if !CoveredUpTo(b.rest, k, u) { LandLoose(s, id, u); }
    }
    forall k | 0 <= k < |b.rest| ensures FrameOk(s', b.rest[k]) { assert FrameOk(s, b.rest[k]); }
  }

  lemma HeadIsDisjoint(s: State, rest: seq<Command>, t: nat)
    requires Ordered(rest) && rest != [] && (forall k :: 0 <= k < |rest| ==> FrameOk(s, rest[k]))
             && Covered(rest[1..], t)
    ensures t !in rest[0].covers
  {
    var k :| 0 <= k < |rest[1..]| && t in rest[1..][k].covers;
    assert FrameOk(s, rest[0]) && FrameOk(s, rest[k + 1]) && t in rest[k + 1].covers;
    forall v | v in rest[0].covers ensures v != t { OrderedFramesAreDisjoint(rest, 0, k + 1, v, t); }
  }

  lemma LandSelfSweeps(s: State, id: nat)
    requires Inv(s) && Enabled(s, Land(id))
    ensures SweepsOnlyApproved(Apply(s, Land(id)), id)
  {
    var s' := Apply(s, Land(id));
    var rest := s.batches[id].rest;
    LandingSweeps(s, id);
    forall k, u | 0 <= k < |rest[1..]| && rest[1..][k].multiple && u in s'.unacked && u <= rest[1..][k].tag
      ensures CoveredUpTo(rest[1..], k, u) || Loose(s', u)
    {
      assert rest[1..][k] == rest[k + 1];
      assert BatchOk(s, id);
      if CoveredUpTo(rest, k + 1, u) { CoveredUpToTail(rest, k, u); } else { LandLoose(s, id, u); }
    }
  }

  /** The tags behind the head stay pending, and the head's own are settled. */
  lemma LandSelfTags(s: State, id: nat, t: nat)
    requires Inv(s) && Enabled(s, Land(id))
    ensures var s', rest := Apply(s, Land(id)), s.batches[id].rest;
            && (Covered(rest[1..], t) ==> Pending(s', t) && t !in rest[0].covers)
            && (t in rest[0].covers ==> t !in s'.unacked && t in s'.registered)
  {
    var rest := s.batches[id].rest;
    LandingSweeps(s, id);
    assert BatchOk(s, id);
    CoveredHead(rest, t);
    if Covered(rest[1..], t) {
      assert Waiting(s, id, t) && Pending(s, t);
      HeadIsDisjoint(s, rest, t);
    } else if t in rest[0].covers {
      assert Pending(s, t);
    }
  }

  lemma LandSelf(s: State, id: nat)
    requires Inv(s) && Enabled(s, Land(id))
    ensures BatchOk(Apply(s, Land(id)), id)
  {
    var s' := Apply(s, Land(id));
    var rest := s.batches[id].rest;
    assert BatchOk(s, id);
    forall t ensures Waiting(s', id, t) || Arrived(s', id, t) ==> Waiting(s, id, t) { CoveredHead(rest, t); }
    forall t ensures Covered(rest[1..], t) ==> Pending(s', t) && t !in rest[0].covers { LandSelfTags(s, id, t); }
    forall t ensures t in rest[0].covers ==> t !in s'.unacked && t in s'.registered { LandSelfTags(s, id, t); }
    LandSelfSweeps(s, id);
    forall k | 0 <= k < |rest[1..]| ensures FrameOk(s', rest[1..][k]) { assert FrameOk(s, rest[k + 1]); }
  }

  lemma LandReserved(s: State, id: nat)
    requires Inv(s) && Enabled(s, Land(id))
    ensures ReservedOk(Apply(s, Land(id)))
  {
    var s' := Apply(s, Land(id));
    assert forall j :: Live(s', j) <==> Live(s, j);
    forall j, t ensures Waiting(s', j, t) ==> Waiting(s, j, t) {
      if j == id && Waiting(s', j, t) { CoveredHead(s.batches[id].rest, t); }
    }
    forall t | t in s'.c.reserved ensures Waiting(s', s.c.reserved[t], t) || Arrived(s', s.c.reserved[t], t) {
      var j := s.c.reserved[t];
      assert Waiting(s, j, t) || Arrived(s, j, t);
      if j == id {
        CoveredHead(s.batches[id].rest, t);
      } else {
        assert Waiting(s, j, t) ==> Waiting(s', j, t);
        assert Arrived(s, j, t) ==> Arrived(s', j, t);
      }
    }
  }

  lemma LandLedger(s: State, id: nat)
    requires Inv(s) && Enabled(s, Land(id))
    ensures LedgerOk(Apply(s, Land(id))) && OnlyApprovedAcked(Apply(s, Land(id)))
  {
    var s' := Apply(s, Land(id));
    var f := s.batches[id].rest[0];
    LandingSweeps(s, id);
    assert BatchOk(s, id) && FrameOk(s, f);
    forall t | t in s.c.ledger && t !in s.c.reserved ensures Pending(s', t) {
      assert Pending(s, t);
      if t in f.covers {
        CoveredHead(s.batches[id].rest, t);
        assert Waiting(s, id, t);
      }
    }
  }

  lemma LandKeeps(s: State, id: nat)
    requires Inv(s) && Enabled(s, Land(id))
    ensures Inv(Apply(s, Land(id)))
  {
    var s' := Apply(s, Land(id));
    LandLedger(s, id);
    LandReserved(s, id);
    forall j | Live(s', j) ensures BatchOk(s', j) {
      if j == id { LandSelf(s, id); } else { LandOther(s, id, j); }
    }
  }

  // ---------------------------------------------------------------- a new batch

  lemma PrepareLoose(s: State, step: Step, u: nat)
    requires Inv(s) && step.PrepareBatch? && Enabled(s, step) && Loose(s, u)
    ensures Loose(Apply(s, step), u)
  {
    var s' := Apply(s, step);
    forall j ensures !Waiting(s', j, u) {
      assert !Waiting(s, j, u);
      if j == s.c.nextBatch && Covered(step.commands, u) {
        CoveredIsTracked(s.c, step.force, step.commands, step.next.hold, u);
      }
    }
  }

  lemma CoveredIsTracked(c: Coord, force: bool, commands: seq<Command>, hold: map<nat, nat>, t: nat)
    requires PlanOk(c, force, commands, hold) && Covered(commands, t)
    ensures t in c.ledger && t !in c.reserved
  {
    var k :| 0 <= k < |commands| && t in commands[k].covers;
    assert CommandFits(c, force, commands[k]);
  }

  /** Reservations of other batches stay as they are. */
  lemma PrepareRespects(s: State, step: Step)
    requires step.PrepareBatch? && Enabled(s, step)
    ensures forall t :: t in s.c.reserved ==> t in step.next.reserved && step.next.reserved[t] == s.c.reserved[t]
  {
    forall t | t in s.c.reserved ensures t in step.next.reserved && step.next.reserved[t] == s.c.reserved[t] {
      if Covered(step.commands, t) { CoveredIsTracked(s.c, step.force, step.commands, step.next.hold, t); }
    }
  }

  lemma PrepareOther(s: State, step: Step, j: nat)
    requires Inv(s) && step.PrepareBatch? && Enabled(s, step) && Live(s, j)
    ensures BatchOk(Apply(s, step), j)
  {
    var s' := Apply(s, step);
    var b := s.batches[j];
    assert BatchOk(s, j);
    assert forall t :: Waiting(s', j, t) <==> Waiting(s, j, t);
    assert forall t :: Arrived(s', j, t) <==> Arrived(s, j, t);
    PrepareRespects(s, step);
    forall k, u | 0 <= k < |b.rest| && b.rest[k].multiple && u in s'.unacked && u <= b.rest[k].tag
      ensures CoveredUpTo(b.rest, k, u) || Loose(s', u)
    {
      if !CoveredUpTo(b.rest, k, u) { PrepareLoose(s, step, u); }
    }
    forall k | 0 <= k < |b.rest| ensures FrameOk(s', b.rest[k]) { assert FrameOk(s, b.rest[k]); }
  }

  /** A tag below a planned cumulative ack is tracked, or loose: the gap floor leaves no third case. */
  lemma BelowCumulative(s: State, step: Step, k: nat, u: nat)
    requires Inv(s) && step.PrepareBatch? && Enabled(s, step)
    requires k < |step.commands| && step.commands[k].multiple && u in s.unacked && u <= step.commands[k].tag
    ensures CoveredUpTo(step.commands, k, u) || Loose(Apply(s, step), u)
  {
    var f := step.commands[k];
    assert CommandFits(s.c, step.force, f);
    assert f.tag in f.covers;
    if u !in s.c.ledger {
      assert u in s.succeeded && u in s.current;
      forall j ensures !Waiting(s, j, u) { assert Live(s, j) ==> BatchOk(s, j); }
      PrepareLoose(s, step, u);
    }
  }

  lemma PrepareFrame(s: State, step: Step, k: nat)
    requires Inv(s) && step.PrepareBatch? && Enabled(s, step) && k < |step.commands|
    ensures FrameOk(Apply(s, step), step.commands[k])
  {
    var f := step.commands[k];
    assert CommandFits(s.c, step.force, f);
    assert f.tag in f.covers;
    if f.multiple {
      forall u | 1 <= u <= f.tag ensures u in s.registered { assert BelowGap(s.c, u); }
    }
  }

  lemma PrepareSelf(s: State, step: Step)
    requires Inv(s) && step.PrepareBatch? && Enabled(s, step)
    ensures BatchOk(Apply(s, step), s.c.nextBatch)
  {
    var s', id := Apply(s, step), s.c.nextBatch;
    forall t | Covered(step.commands, t) ensures t in s.c.ledger && t !in s.c.reserved {
      CoveredIsTracked(s.c, step.force, step.commands, step.next.hold, t);
    }
    forall k | 0 <= k < |step.commands| ensures FrameOk(s', step.commands[k]) { PrepareFrame(s, step, k); }
    forall k, u | 0 <= k < |step.commands| && step.commands[k].multiple && u in s'.unacked && u <= step.commands[k].tag
      ensures CoveredUpTo(step.commands, k, u) || Loose(s', u)
    {
      BelowCumulative(s, step, k, u);
    }
  }

  /** A waiting tag is never free to be planned again. */
  lemma WaitingIsReserved(s: State, j: nat, t: nat)
    requires Inv(s) && Waiting(s, j, t)
    ensures t !in s.c.ledger || t in s.c.reserved
  {
    assert BatchOk(s, j);
  }

  lemma PrepareWaits(s: State, step: Step, j: nat, t: nat)
    requires step.PrepareBatch? && Enabled(s, step)
    ensures Waiting(Apply(s, step), j, t) <==>
            if j == s.c.nextBatch then Covered(step.commands, t) else Waiting(s, j, t)
    ensures j != s.c.nextBatch ==> (Arrived(Apply(s, step), j, t) <==> Arrived(s, j, t))
  {
  }

  lemma PrepareReserved(s: State, step: Step)
    requires ReservedOk(s) && step.PrepareBatch? && Enabled(s, step)
    requires forall j, t :: Waiting(s, j, t) ==> t !in s.c.ledger || t in s.c.reserved
    ensures ReservedOk(Apply(s, step))
  {
    var s', id := Apply(s, step), s.c.nextBatch;
    forall t | t in s'.c.reserved
      ensures Waiting(s', s'.c.reserved[t], t) || Arrived(s', s'.c.reserved[t], t)
    {
      PrepareWaits(s, step, s'.c.reserved[t], t);
      if !Covered(step.commands, t) { assert Waiting(s, s.c.reserved[t], t) || Arrived(s, s.c.reserved[t], t); }
    }
    forall i, j, t | Waiting(s', i, t) && Waiting(s', j, t) ensures i == j {
      PrepareWaits(s, step, i, t);
      PrepareWaits(s, step, j, t);
      if Covered(step.commands, t) { CoveredIsTracked(s.c, step.force, step.commands, step.next.hold, t); }
    }
  }

  lemma PrepareLedger(s: State, step: Step)
    requires LedgerOk(s) && step.PrepareBatch? && Enabled(s, step)
    ensures LedgerOk(Apply(s, step))
  {
    var s2 := Apply(s, step);
    PreparedIsFormed(s.c, step.force, step.commands, step.next);
    forall t | t in s2.c.ledger && t !in s2.c.reserved ensures Pending(s2, t) { PrepareLeaves(s, step, t); }
    forall t | t in s2.c.reserved ensures t in s2.registered && (t in s2.unacked ==> t in s2.c.ledger) {
      PrepareTracks(s, step, t);
    }
    forall t | 1 <= t <= s2.c.lastRegistered && BelowGap(s2.c, t)
      ensures t in s2.current && (t in s2.unacked ==> t in s2.c.ledger || t in s2.succeeded)
    {
      assert BelowGap(s.c, t);
    }
  }

  lemma PreparedIsFormed(c: Coord, force: bool, commands: seq<Command>, c': Coord)
    requires WellFormed(c) && Prepared(c, force, commands, c.nextBatch, c')
    ensures WellFormed(c')
  {
  }

  lemma PrepareTracks(s: State, step: Step, t: nat)
    requires LedgerOk(s) && step.PrepareBatch? && Enabled(s, step) && t in step.next.reserved
    ensures t in s.registered && (t in s.unacked ==> t in s.c.ledger)
  {
    if Covered(step.commands, t) { CoveredIsTracked(s.c, step.force, step.commands, step.next.hold, t); }
  }

  lemma PrepareLeaves(s: State, step: Step, t: nat)
    requires LedgerOk(s) && step.PrepareBatch? && Enabled(s, step) && t in step.next.ledger && t !in step.next.reserved
    ensures Pending(s, t)
  {
  }

  lemma PrepareKeeps(s: State, step: Step)
    requires Inv(s) && step.PrepareBatch? && Enabled(s, step)
    ensures Inv(Apply(s, step))
  {
    forall j, t | Waiting(s, j, t) ensures t !in s.c.ledger || t in s.c.reserved { WaitingIsReserved(s, j, t); }
    PrepareReserved(s, step);
    PrepareLedger(s, step);
    forall j | Live(Apply(s, step), j) ensures BatchOk(Apply(s, step), j) {
      if j == s.c.nextBatch { PrepareSelf(s, step); } else { PrepareOther(s, step, j); }
    }
  }

  // ---------------------------------------------------------------- whole runs

  ghost function Next(s: State, step: Step): State { if Enabled(s, step) then Apply(s, step) else s }

  lemma StepKeeps(s: State, step: Step)
    requires Inv(s)
    ensures Inv(Next(s, step))
  {
    if Enabled(s, step) {
      match step
      case Deliver => DeliverKeeps(s);
      case RegisterTag(tag) => RegisterKeeps(s, tag);
      case Intent(tag, state, flag) => IntentKeeps(s, tag, state, flag);
      case SettleElsewhere(tag) => SettleElsewhereKeeps(s, tag);
      case ReleaseTag(tag) => ReleaseKeeps(s, tag);
      case PrepareBatch(_, _, _) => PrepareKeeps(s, step);
      case Land(id) => LandKeeps(s, id);
      case CommitLanded(id) => CommitKeeps(s, id);
      case FailLanded(id) => FailLandedKeeps(s, id);
      case FailLost(id) => FailLostKeeps(s, id);
      case Reconnect => ReconnectKeeps(s);
    }
  }

  /** A coordinator that has seen nothing yet. */
  ghost predicate Fresh(c: Coord) {
    c.ledger == map[] && c.hold == map[] && c.requeue == map[] && c.reserved == map[] && c.lastRegistered == 0
    && c.gapFloor == 0
  }

  /** The state after a run. */
  ghost function Ran(c: Coord, steps: seq<Step>): State { Reached(Next, Init(c), steps) }

  lemma RunKeeps(c: Coord, steps: seq<Step>)
    requires Fresh(c)
    ensures Inv(Ran(c, steps))
  {
    forall s, step | Inv(s) ensures Inv(Next(s, step)) { StepKeeps(s, step); }
    ReachedKeeps(Next, Inv, Init(c), steps);
  }

  /** Approval and refusal are decided once: the ledger agrees with what the handlers said. */
  ghost predicate DecidedOk(s: State) {
    && s.succeeded !! s.refused && s.succeeded + s.refused <= s.registered
    && forall t :: t in s.c.ledger ==>
         (s.c.ledger[t] == Success <==> t in s.succeeded) && (Refusal(s.c.ledger[t]) <==> t in s.refused)
  }

  lemma FailureDecides(s: State, id: nat, f: Command, rest: seq<Command>)
    requires DecidedOk(s) && id in s.batches
    ensures DecidedOk(AfterFailure(s, id, f, rest))
  {
  }

  lemma StepDecides(s: State, step: Step)
    requires LedgerOk(s) && DecidedOk(s) && Enabled(s, step)
    ensures DecidedOk(Apply(s, step))
  {
    var s' := Apply(s, step);
    match step
    case Intent(tag, state, flag) => IntentsAreMonotone(s.c, tag, state, flag);
    case FailLanded(id) => FailureDecides(s, id, s.batches[id].landed.value, s.batches[id].rest);
    case FailLost(id) => FailureDecides(s, id, s.batches[id].rest[0], s.batches[id].rest[1..]);
    case _ =>
  }

  lemma RunDecides(c: Coord, steps: seq<Step>)
    requires Fresh(c)
    ensures DecidedOk(Ran(c, steps))
  {
    var inv := (s: State) => Inv(s) && DecidedOk(s);
    forall s, step | inv(s) ensures inv(Next(s, step)) {
      StepKeeps(s, step);
      if Enabled(s, step) { StepDecides(s, step); }
    }
    ReachedKeeps(Next, inv, Init(c), steps);
  }

  /** The frame a batch resolves next. */
  function HeadFrame(b: Batch): Command
    requires b.landed.Some? || b.rest != []
  {
    if b.landed.Some? then b.landed.value else b.rest[0]
  }

  /** A frame of the present generation that covers the delivery is resolved, a nack or reject of that generation fails,
      the delivery is released, or the channel is replaced. */
  ghost predicate Leaves(s: State, step: Step, t: nat)
    requires Enabled(s, step)
  {
    match step
    case CommitLanded(id) => s.batches[id].generation == s.c.generation && t in HeadFrame(s.batches[id]).covers
    case FailLanded(id) => s.batches[id].generation == s.c.generation && Spoils(HeadFrame(s.batches[id]), t)
    case FailLost(id) => s.batches[id].generation == s.c.generation && Spoils(HeadFrame(s.batches[id]), t)
    case ReleaseTag(tag) => t == tag
    case Reconnect => true
    case _ => false
  }

  predicate Spoils(frame: Command, t: nat) { t in frame.covers || frame.kind != SendAck }

  /** Exactly when a delivery leaves the ledger. */
  lemma LeavesLedgerIff(s: State, step: Step, t: nat)
    requires Inv(s) && Enabled(s, step) && t in s.c.ledger
    ensures t !in Apply(s, step).c.ledger <==> Leaves(s, step, t)
  {
    match step
    case Intent(tag, state, flag) => IntentsAreMonotone(s.c, tag, state, flag);
    case CommitLanded(id) => CommitDrops(s.c, s.batches[id].generation, HeadFrame(s.batches[id]), t);
    case FailLanded(id) => FailDrops(s.c, s.batches[id].generation, HeadFrame(s.batches[id]), t);
    case FailLost(id) => FailDrops(s.c, s.batches[id].generation, HeadFrame(s.batches[id]), t);
    case _ =>
  }

  /** The gap is where the first delivery was skipped: it is not registered, and everything before it is. */
  ghost predicate GapOk(s: State) {
    && (s.c.gapFloor > 0 ==> s.c.gapFloor < s.c.lastRegistered && s.c.gapFloor !in s.current)
    && (forall t :: 1 <= t <= s.c.lastRegistered && BelowGap(s.c, t) ==> t in s.current)
    && (forall t :: t in s.current ==> 1 <= t <= s.c.lastRegistered)
  }

  /** Only a registration moves the gap; an invalidation forgets it. */
  lemma GapStays(s: State, step: Step)
    requires Enabled(s, step) && !step.RegisterTag?
    ensures var s' := Apply(s, step);
            || (s'.c.gapFloor == s.c.gapFloor && s'.c.lastRegistered == s.c.lastRegistered && s'.current == s.current)
            || (s'.c.gapFloor == 0 && s'.c.lastRegistered == 0 && s'.current == {})
  {
    if step.FailLanded? || step.FailLost? {
      FailDrops(s.c, s.batches[step.id].generation, HeadFrame(s.batches[step.id]), 0);
    }
  }

  lemma RegisterGap(s: State, tag: nat)
    requires GapOk(s) && Register(s.c, tag).Ok?
    ensures GapOk(s.(c := Register(s.c, tag).value, current := s.current + {tag}))
  {
    var s' := s.(c := Register(s.c, tag).value, current := s.current + {tag});
    RegisterIff(s.c, tag);
    forall t | 1 <= t <= s'.c.lastRegistered && BelowGap(s'.c, t) ensures t in s'.current {
      if t != tag { assert BelowGap(s.c, t); }
    }
  }

  lemma StepKeepsGap(s: State, step: Step)
    requires GapOk(s) && Enabled(s, step)
    ensures GapOk(Apply(s, step))
  {
    if step.RegisterTag? {
      if Register(s.c, step.tag).Ok? { RegisterGap(s, step.tag); }
      SameGap(if Register(s.c, step.tag).Ok?
              then s.(c := Register(s.c, step.tag).value, current := s.current + {step.tag}) else s, Apply(s, step));
    } else {
      GapStays(s, step);
      var s' := Apply(s, step);
      if s'.c.gapFloor == s.c.gapFloor && s'.c.lastRegistered == s.c.lastRegistered && s'.current == s.current {
        SameGap(s, s');
      }
    }
  }

  lemma SameGap(s: State, s': State)
    requires GapOk(s)
    requires s'.c.gapFloor == s.c.gapFloor && s'.c.lastRegistered == s.c.lastRegistered && s'.current == s.current
    ensures GapOk(s')
  {
    assert forall t :: BelowGap(s'.c, t) <==> BelowGap(s.c, t);
  }

  /** In every run the gap is exactly the lowest tag the present generation skipped, and there is none if and only if it
      skipped none. */
  lemma GapIsFirst(c: Coord, steps: seq<Step>)
    requires Fresh(c)
    ensures var s := Ran(c, steps);
            && (s.c.gapFloor == 0 <==> forall t :: 1 <= t <= s.c.lastRegistered ==> t in s.current)
            && (s.c.gapFloor > 0 ==> s.c.gapFloor !in s.current && forall t :: 1 <= t < s.c.gapFloor ==> t in s.current)
  {
    forall s, step | GapOk(s) ensures GapOk(Next(s, step)) { if Enabled(s, step) { StepKeepsGap(s, step); } }
    ReachedKeeps(Next, GapOk, Init(c), steps);
  }

  /** The safety theorem: in every state of every run, no delivery has been acknowledged unless its handler
      approved it or it was settled elsewhere; in particular none that a handler failed, cancelled, nacked or
      rejected was acknowledged by the coordinator. */
  lemma NeverAcksUnapproved(c: Coord, steps: seq<Step>)
    requires Fresh(c)
    ensures var s := Ran(c, steps); s.acked <= s.succeeded + s.elsewhere && (s.acked - s.elsewhere) !! s.refused
  {
    RunKeeps(c, steps);
    RunDecides(c, steps);
  }

  /** A frame that reaches the broker names an unsettled delivery, and settles every tag it covers, if and only if
      nobody had settled it past the coordinator; so without that no frame closes the channel. */
  lemma NeverSettlesTwice(c: Coord, steps: seq<Step>, id: nat)
    requires Fresh(c) && Enabled(Ran(c, steps), Land(id))
    ensures var s, f := Ran(c, steps), Ran(c, steps).batches[id].rest[0];
            && (f.tag in s.unacked <==> f.tag !in s.elsewhere)
            && forall t :: t in f.covers ==> (t in s.unacked <==> t !in s.elsewhere) && t !in Next(s, Land(id)).unacked
  {
    RunKeeps(c, steps);
    LandingSweeps(Ran(c, steps), id);
  }

  /** The coordinator does not prevent it: a delivery can be settled elsewhere and released while a frame for it is
      in flight, and that frame can still reach the broker. */
  lemma ReleasedInFlight(c: Coord, steps: seq<Step>, id: nat, tag: nat)
    requires Fresh(c) && Enabled(Ran(c, steps), Land(id)) && tag in Ran(c, steps).batches[id].rest[0].covers
    requires tag in Ran(c, steps).unacked
    ensures var s := Ran(c, steps + [SettleElsewhere(tag)] + [ReleaseTag(tag)]);
            && Enabled(s, Land(id)) && s.batches == Ran(c, steps).batches
            && tag !in s.unacked && tag in s.elsewhere && tag !in s.c.ledger
  {
    ReachedSnoc(Next, Init(c), steps, SettleElsewhere(tag));
    ReachedSnoc(Next, Init(c), steps + [SettleElsewhere(tag)], ReleaseTag(tag));
  }
}
