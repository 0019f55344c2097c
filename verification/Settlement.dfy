/** The channel-wide delivery ledger that plans acknowledgement frames.

    A `Coord` value is the whole state of one coordinator. The planning walk is a method of
    `SettlementCoordinator`; what it must produce is stated by `PlanOk`, without reference to the walk.
    Delivery tags are per channel, start at 1 and strictly increase, so walking the tags 1, 2, ... up to
    the last registered one visits the ledger in ascending tag order.
 */
module Settlement {
  import opened Common

  datatype DeliveryState = Outstanding | Success | RetryPending | Failed | Cancelled | Nack | Reject

  datatype Action = SendAck | SendNack | SendReject

  /** One wire frame. `covers` lists every delivery tag the frame is meant to settle. */
  datatype Command = Command(kind: Action, tag: nat, multiple: bool, requeue: bool, covers: seq<nat>)

  datatype Error = NotPositive | NotIncreasing | LedgerFull | Contradictory | StaleGeneration | UnknownDelivery

  datatype Result<+T> = Ok(value: T) | Err(error: Error)

  datatype Coord = Coord(
    generation: nat,
    coalesce: bool,
    maxHold: nat,
    maxPending: nat,
    ledger: map<nat, DeliveryState>,
    hold: map<nat, nat>,
    requeue: map<nat, bool>,
    lastRegistered: nat,
    gapFloor: nat,
    reserved: map<nat, nat>,
    nextBatch: nat,
    prevHighWater: nat)

  ghost predicate WellFormed(c: Coord) {
    && (forall u :: u in c.ledger ==> 1 <= u <= c.lastRegistered)
    && c.gapFloor <= c.lastRegistered
  }

  // ---------------------------------------------------------------- registration and intents

  predicate LegalTransition(from: DeliveryState, to: DeliveryState) {
    match from
    case Outstanding => to != Outstanding
    case RetryPending => to != Outstanding && to != RetryPending
    case Failed => to == Nack || to == Reject
    case Cancelled => to == Nack || to == Reject
    case Success => false
    case Nack => false
    case Reject => false
  }

  function Register(c: Coord, tag: int): Result<Coord> {
    if tag <= 0 then Err(NotPositive)
    else if tag <= c.lastRegistered then Err(NotIncreasing)
    else if c.maxPending > 0 && |c.ledger| >= c.maxPending then Err(LedgerFull)
    else
      var gap := if tag > c.lastRegistered + 1 && c.gapFloor == 0 then c.lastRegistered + 1 else c.gapFloor;
      Ok(c.(ledger := c.ledger[tag := Outstanding], lastRegistered := tag, gapFloor := gap))
  }

  function SetIntent(c: Coord, tag: nat, state: DeliveryState, requeue: Option<bool>): Result<Coord> {
    if tag !in c.ledger then
      Err(if tag <= c.lastRegistered then Contradictory
          else if tag <= c.prevHighWater then StaleGeneration
          else UnknownDelivery)
    else if c.ledger[tag] == state then
      if requeue.Some? && !(tag in c.requeue && c.requeue[tag] == requeue.value) then Err(Contradictory) else Ok(c)
    else if !LegalTransition(c.ledger[tag], state) then Err(Contradictory)
    else
      Ok(c.(ledger := c.ledger[tag := state],
            requeue := if requeue.Some? then c.requeue[tag := requeue.value] else c.requeue))
  }

  function Release(c: Coord, tag: nat): Coord {
    c.(ledger := c.ledger - {tag}, hold := c.hold - {tag}, requeue := c.requeue - {tag})
  }

  /** A delivery whose handler failed or was cancelled is never approved for an ack, and an approval,
      a nack or a reject is final. */
  lemma IntentsAreMonotone(c: Coord, tag: nat, state: DeliveryState, requeue: Option<bool>)
    ensures SetIntent(c, tag, state, requeue).Ok? ==>
              var c' := SetIntent(c, tag, state, requeue).value;
              && tag in c.ledger && c'.ledger.Keys == c.ledger.Keys && c'.ledger[tag] == state
              && (forall u :: u in c.ledger && u != tag ==> c'.ledger[u] == c.ledger[u])
              && (state == Success ==> c.ledger[tag] in {Outstanding, RetryPending, Success})
              && (c.ledger[tag] in {Success, Nack, Reject} ==> state == c.ledger[tag])
  {
  }

  /** Which decisions are recorded: repeating the present one, any decision on a delivery whose handler still runs or
      is being retried, and a nack or reject of one that failed or was cancelled; a repeat must not flip the flag. */
  lemma IntentIff(c: Coord, tag: nat, state: DeliveryState, requeue: Option<bool>)
    ensures SetIntent(c, tag, state, requeue).Ok? <==>
            && tag in c.ledger
            && if c.ledger[tag] == state then requeue == None || (tag in c.requeue && Some(c.requeue[tag]) == requeue)
               else || c.ledger[tag] == Outstanding
                    || (c.ledger[tag] == RetryPending && state != Outstanding)
                    || (c.ledger[tag] in {Failed, Cancelled} && state in {Nack, Reject})
    ensures SetIntent(c, tag, state, requeue).Ok? ==>
              var c' := SetIntent(c, tag, state, requeue).value;
              && c' == c.(ledger := c'.ledger, requeue := c'.requeue)
              && (forall u :: u != tag ==>
                    (u in c'.requeue <==> u in c.requeue) && (u in c.requeue ==> c'.requeue[u] == c.requeue[u]))
              && (requeue.Some? ==> tag in c'.requeue && c'.requeue[tag] == requeue.value)
              && (requeue == None ==> c'.requeue == c.requeue)
    ensures SetIntent(c, tag, state, requeue).Err? ==>
              SetIntent(c, tag, state, requeue).error ==
              if tag in c.ledger || tag <= c.lastRegistered then Contradictory
              else if tag <= c.prevHighWater then StaleGeneration else UnknownDelivery
  {
  }

  /** A delivery is registered exactly when its tag is new and the ledger has room, and refused for the first of these
      that fails. */
  lemma RegisterIff(c: Coord, tag: int)
    ensures Register(c, tag).Ok? <==>
            tag > 0 && tag > c.lastRegistered && (c.maxPending == 0 || |c.ledger| < c.maxPending)
    ensures Register(c, tag) == Err(NotPositive) <==> tag <= 0
    ensures Register(c, tag) == Err(NotIncreasing) <==> 0 < tag <= c.lastRegistered
    ensures Register(c, tag) == Err(LedgerFull) <==> tag > 0 && tag > c.lastRegistered && 0 < c.maxPending <= |c.ledger|
  {
  }

  /** Registering adds one outstanding delivery, and a gap exactly where one was skipped for the first time; the first
      gap stays the first. */
  lemma RegisterAdds(c: Coord, tag: int)
    requires Register(c, tag).Ok?
    ensures var c' := Register(c, tag).value;
            && c'.ledger.Keys == c.ledger.Keys + {tag} && c'.ledger[tag] == Outstanding && c'.lastRegistered == tag
            && (forall u :: u in c.ledger && u != tag ==> c'.ledger[u] == c.ledger[u])
            && (c'.gapFloor != c.gapFloor <==> c.gapFloor == 0 && tag != c.lastRegistered + 1)
            && (c'.gapFloor != c.gapFloor ==> c'.gapFloor == c.lastRegistered + 1)
            && c' == c.(ledger := c'.ledger, lastRegistered := c'.lastRegistered, gapFloor := c'.gapFloor)
  {
  }

  /** Releasing takes one delivery out of every table but the reservations, and nothing else. */
  lemma ReleaseDrops(c: Coord, tag: nat, u: nat)
    ensures var c' := Release(c, tag);
            && tag !in c'.ledger && tag !in c'.hold && tag !in c'.requeue && c'.reserved == c.reserved
            && (u != tag ==> SameEntry(c, c', u))
            && c' == c.(ledger := c'.ledger, hold := c'.hold, requeue := c'.requeue)
  {
  }

  /** Both say the same about a delivery. */
  predicate SameEntry(c: Coord, c': Coord, u: nat) {
    && (u in c.ledger <==> u in c'.ledger) && (u in c.ledger ==> c'.ledger[u] == c.ledger[u])
    && (u in c.hold <==> u in c'.hold) && (u in c.hold ==> c'.hold[u] == c.hold[u])
    && (u in c.requeue <==> u in c'.requeue) && (u in c.requeue ==> c'.requeue[u] == c.requeue[u])
    && (u in c.reserved <==> u in c'.reserved) && (u in c.reserved ==> c'.reserved[u] == c.reserved[u])
  }

  predicate Forgotten(c: Coord, u: nat) { u !in c.ledger && u !in c.hold && u !in c.requeue && u !in c.reserved }

  // ---------------------------------------------------------------- settling, failing, invalidating

  function SettleTags(c: Coord, tags: set<nat>): Coord {
    c.(ledger := c.ledger - tags, hold := c.hold - tags, requeue := c.requeue - tags, reserved := c.reserved - tags)
  }

  function CommitCommand(c: Coord, generation: nat, command: Command): Coord {
    if generation != c.generation then c else SettleTags(c, Elements(command.covers))
  }

  function Invalidate(c: Coord): Coord {
    c.(ledger := map[], hold := map[], requeue := map[], reserved := map[],
       prevHighWater := if c.prevHighWater > c.lastRegistered then c.prevHighWater else c.lastRegistered,
       lastRegistered := 0, gapFloor := 0, generation := c.generation + 1)
  }

  /** The new state, and whether the generation was invalidated. */
  function FailCommand(c: Coord, generation: nat, command: Command): (Coord, bool) {
    if generation != c.generation then (c, false)
    else if command.kind == SendAck then (SettleTags(c, Elements(command.covers)), false)
    else (Invalidate(SettleTags(c, Elements(command.covers))), true)
  }

  /** A frame that landed takes exactly its own deliveries away, if it is of the present generation. */
  lemma CommitDrops(c: Coord, generation: nat, command: Command, u: nat)
    ensures var c' := CommitCommand(c, generation, command);
            && (if generation == c.generation && u in command.covers then Forgotten(c', u) else SameEntry(c, c', u))
            && c' == c.(ledger := c'.ledger, hold := c'.hold, requeue := c'.requeue, reserved := c'.reserved)
  {
  }

  /** A frame that failed does too; only a nack or reject also ends the generation, and then everything goes but the
      highest tag ever registered. */
  lemma FailDrops(c: Coord, generation: nat, command: Command, u: nat)
    ensures var (c', invalidated) := FailCommand(c, generation, command);
            && (invalidated <==> generation == c.generation && command.kind != SendAck)
            && (generation != c.generation ==> c' == c)
            && (generation == c.generation && u in command.covers ==> Forgotten(c', u))
            && (generation == c.generation && !invalidated ==>
                  && (u !in command.covers ==> SameEntry(c, c', u))
                  && c' == c.(ledger := c'.ledger, hold := c'.hold, requeue := c'.requeue, reserved := c'.reserved))
            && (invalidated ==> Forgotten(c', u) && Renewed(c, c'))
  {
  }

  /** A new generation: nothing registered, no gap, and the high-water mark of all generations before. */
  predicate Renewed(c: Coord, c': Coord) {
    && c'.generation == c.generation + 1 && c'.lastRegistered == 0 && c'.gapFloor == 0 && c'.nextBatch == c.nextBatch
    && c'.prevHighWater >= c.prevHighWater && c'.prevHighWater >= c.lastRegistered
    && c'.prevHighWater in {c.prevHighWater, c.lastRegistered}
    && c'.coalesce == c.coalesce && c'.maxHold == c.maxHold && c'.maxPending == c.maxPending
  }

  lemma InvalidateRenews(c: Coord, u: nat)
    ensures Renewed(c, Invalidate(c)) && Forgotten(Invalidate(c), u)
  {
  }

  predicate CoveredUpTo(commands: seq<Command>, i: int, tag: nat) {
    exists k :: 0 <= k <= i && k < |commands| && tag in commands[k].covers
  }

  predicate Covered(commands: seq<Command>, tag: nat) { CoveredUpTo(commands, |commands| - 1, tag) }

  function ReleaseCommands(c: Coord, generation: nat, batchId: nat, commands: seq<Command>): Coord {
    if generation != c.generation then c
    else c.(reserved := map t | t in c.reserved && !(c.reserved[t] == batchId && Covered(commands, t)) :: c.reserved[t])
  }

  // ---------------------------------------------------------------- what a plan must be

  predicate Coalescing(c: Coord, force: bool) { c.coalesce && !force }

  /** No cumulative ack may reach past this tag: it is unfinished, or on the wire with an unknown outcome. */
  predicate Blocks(c: Coord, tag: nat) {
    tag in c.ledger && (tag in c.reserved || c.ledger[tag] in {Outstanding, RetryPending, Failed, Cancelled})
  }

  ghost predicate BlockedBelow(c: Coord, tag: nat) { exists u: nat :: Blocks(c, u) && u < tag }

  predicate AckSafe(c: Coord, tag: nat) { tag in c.ledger && tag !in c.reserved && c.ledger[tag] == Success }

  predicate BelowGap(c: Coord, tag: nat) { c.gapFloor == 0 || tag < c.gapFloor }

  function HoldOf(hold: map<nat, nat>, tag: nat): nat { if tag in hold then hold[tag] else 0 }

  predicate Ascending(tags: seq<nat>) { forall i, j :: 0 <= i < j < |tags| ==> tags[i] < tags[j] }

  ghost predicate CommandFits(c: Coord, force: bool, command: Command) {
    && Ascending(command.covers) && |command.covers| >= 1 && command.covers[|command.covers| - 1] == command.tag
    && match command.kind
       case SendAck =>
         && (forall t :: t in command.covers ==> AckSafe(c, t))
         && (if command.multiple
             then |command.covers| >= 2 && Coalescing(c, force) && BelowGap(c, command.tag)
             else |command.covers| == 1)
       case SendNack =>
         && command.covers == [command.tag] && !command.multiple
         && command.tag in c.ledger && command.tag !in c.reserved && c.ledger[command.tag] == Nack
         && command.requeue == (if command.tag in c.requeue then c.requeue[command.tag] else true)
       case SendReject =>
         && command.covers == [command.tag] && !command.multiple
         && command.tag in c.ledger && command.tag !in c.reserved && c.ledger[command.tag] == Reject
         && command.requeue == (if command.tag in c.requeue then c.requeue[command.tag] else false)
  }

  /** Frames ascend: each one covers only tags above the frame before it. */
  ghost predicate Ordered(commands: seq<Command>) {
    forall i, j :: 0 <= i < j < |commands| && |commands[j].covers| > 0 ==> commands[i].tag < commands[j].covers[0]
  }

  /** So no tag is covered twice, and every lower frame goes out first. */
  lemma OrderedFramesAreDisjoint(commands: seq<Command>, i: nat, j: nat, t: nat, u: nat)
    requires Ordered(commands) && i < j < |commands| && t in commands[i].covers && u in commands[j].covers
    requires Ascending(commands[i].covers) && Ascending(commands[j].covers)
    requires commands[i].covers[|commands[i].covers| - 1] == commands[i].tag
    ensures t < u
  {
  }

  /** A cumulative ack at N leaves no ledger entry at or below N for later: each is covered by it or by an
      earlier frame of the same plan. */
  ghost predicate CumulativeSound(c: Coord, commands: seq<Command>) {
    forall i, u :: 0 <= i < |commands| && commands[i].multiple && u in c.ledger && u <= commands[i].tag
      ==> CoveredUpTo(commands, i, u)
  }

  /** Stranded behind a blocking delivery and still within its hold budget. */
  ghost predicate Holdable(c: Coord, force: bool, tag: nat) {
    AckSafe(c, tag) && Coalescing(c, force) && BlockedBelow(c, tag) && HoldOf(c.hold, tag) < c.maxHold
  }

  /** Every decided delivery is emitted now, unless it is being held, which costs one hold round. */
  ghost predicate Complete(c: Coord, force: bool, commands: seq<Command>, hold: map<nat, nat>) {
    && (forall u :: u in c.ledger && u !in c.reserved && c.ledger[u] in {Success, Nack, Reject} ==>
          (Covered(commands, u) <==> !Holdable(c, force, u)))
    && (forall u :: HoldOf(hold, u) == HoldOf(c.hold, u) + (if Holdable(c, force, u) then 1 else 0))
  }

  /** No two neighbouring ack frames could have been one cumulative ack. */
  ghost predicate Coalesced(c: Coord, force: bool, commands: seq<Command>) {
    Coalescing(c, force) ==>
      forall i :: 0 <= i < |commands| - 1 && commands[i].kind == SendAck && commands[i + 1].kind == SendAck
                  && !BlockedBelow(c, commands[i + 1].tag)
        ==> !BelowGap(c, commands[i + 1].tag)
  }

  ghost predicate PlanOk(c: Coord, force: bool, commands: seq<Command>, hold: map<nat, nat>) {
    && (forall i :: 0 <= i < |commands| ==> CommandFits(c, force, commands[i]))
    && Ordered(commands)
    && CumulativeSound(c, commands)
    && Complete(c, force, commands, hold)
    && Coalesced(c, force, commands)
  }

  /** A plan that is forced to be individual, or made without coalescing, has one frame per delivery and holds nothing
      back. */
  lemma IndividualPlan(c: Coord, force: bool, commands: seq<Command>, hold: map<nat, nat>, u: nat)
    requires PlanOk(c, force, commands, hold) && (force || !c.coalesce)
    ensures forall i :: 0 <= i < |commands| ==> commands[i].covers == [commands[i].tag] && !commands[i].multiple
    ensures u in c.ledger && u !in c.reserved && c.ledger[u] in {Success, Nack, Reject} ==> Covered(commands, u)
    ensures HoldOf(hold, u) == HoldOf(c.hold, u)
  {
    forall i | 0 <= i < |commands| ensures commands[i].covers == [commands[i].tag] && !commands[i].multiple {
      assert CommandFits(c, force, commands[i]);
    }
  }

  ghost predicate AllApproved(c: Coord) { forall v :: v in c.ledger ==> AckSafe(c, v) }

  lemma NothingBlocks(c: Coord, tag: nat)
    requires AllApproved(c)
    ensures !BlockedBelow(c, tag)
  {
    assert forall u: nat :: AckSafe(c, u) ==> !Blocks(c, u);
  }

  lemma OnlyAcks(c: Coord, command: Command)
    requires AllApproved(c) && CommandFits(c, false, command)
    ensures command.kind == SendAck
  {
    assert command.tag in command.covers;
    assert command.tag in c.ledger ==> AckSafe(c, command.tag);
  }

  lemma OneFrame(c: Coord, commands: seq<Command>)
    requires AllApproved(c) && Coalesced(c, false, commands) && c.coalesce && c.gapFloor == 0
    requires forall i :: 0 <= i < |commands| ==> commands[i].kind == SendAck
    ensures |commands| <= 1
  {
    if |commands| >= 2 {
      var i := 0;
      NothingBlocks(c, commands[i + 1].tag);
      assert commands[i].kind == SendAck && commands[i + 1].kind == SendAck && BelowGap(c, commands[i + 1].tag);
    }
  }

  /** With coalescing, a ledger of at least two approved deliveries and no gap goes out as a single cumulative ack. */
  lemma ApprovedLedgerIsOneAck(c: Coord, commands: seq<Command>, hold: map<nat, nat>, t: nat, u: nat)
    requires PlanOk(c, false, commands, hold) && c.coalesce && c.gapFloor == 0 && AllApproved(c)
    requires t in c.ledger && u in c.ledger && t != u
    ensures |commands| == 1 && commands[0].kind == SendAck && commands[0].multiple
    ensures forall v :: v in c.ledger ==> v in commands[0].covers
  {
    forall i | 0 <= i < |commands| ensures commands[i].kind == SendAck { OnlyAcks(c, commands[i]); }
    OneFrame(c, commands);
    forall v | v in c.ledger ensures Covered(commands, v) {
      assert AckSafe(c, v);
      NothingBlocks(c, v);
    }
    assert Covered(commands, t) && Covered(commands, u);
    assert CommandFits(c, false, commands[0]);
  }

  /** The step of `prepare()`: a plan, with every covered tag reserved by the new batch. */
  ghost predicate Prepared(c: Coord, force: bool, commands: seq<Command>, batchId: nat, c': Coord) {
    && batchId == c.nextBatch
    && PlanOk(c, force, commands, c'.hold)
    && c' == c.(hold := c'.hold, reserved := c'.reserved, nextBatch := c.nextBatch + 1)
    && (forall t :: t in c'.reserved <==> t in c.reserved || Covered(commands, t))
    && (forall t :: t in c'.reserved ==> c'.reserved[t] == if Covered(commands, t) then batchId else c.reserved[t])
  }

  /** A held delivery waits a bounded number of planning rounds: over any sequence of rounds in which it
      stays approved and unreserved and is never planned, at most `maxHold` rounds pass. */
  lemma {:induction false} HoldIsBounded(rounds: seq<Coord>, commands: seq<seq<Command>>, force: seq<bool>, tag: nat,
                                         maxHold: nat)
    requires |rounds| == |commands| + 1 == |force| + 1
    requires forall k :: 0 <= k < |rounds| ==> rounds[k].maxHold == maxHold
    requires forall k :: 0 <= k < |commands| ==>
               && PlanOk(rounds[k], force[k], commands[k], rounds[k + 1].hold)
               && AckSafe(rounds[k], tag) && !Covered(commands[k], tag)
    ensures |commands| > 0 ==> |commands| + HoldOf(rounds[0].hold, tag) <= maxHold
    ensures HoldOf(rounds[|commands|].hold, tag) == HoldOf(rounds[0].hold, tag) + |commands|
  {
    if |commands| > 0 {
      var n := |commands| - 1;
      HoldIsBounded(rounds[..n + 1], commands[..n], force[..n], tag, maxHold);
      assert PlanOk(rounds[n], force[n], commands[n], rounds[n + 1].hold);
      assert Holdable(rounds[n], force[n], tag);
    }
  }

  // ---------------------------------------------------------------- planning one contiguous run

  function SafePrefix(c: Coord, run: seq<nat>): (n: nat)
    requires Ascending(run)
    ensures n <= |run|
    ensures forall i :: 0 <= i < |run| ==> (i < n <==> BelowGap(c, run[i]))
  {
    if |run| == 0 then 0
    else if BelowGap(c, run[|run| - 1]) then |run|
    else SafePrefix(c, run[..|run| - 1])
  }

  function SingleAck(tag: nat): Command { Command(SendAck, tag, false, false, [tag]) }

  /** How many leading tags of a run one cumulative ack takes: those below the first gap, when at least two. */
  function Merged(c: Coord, force: bool, run: seq<nat>): (n: nat)
    requires Ascending(run)
    ensures n <= |run| && n != 1
  {
    var n := SafePrefix(c, run);
    if Coalescing(c, force) && n >= 2 then n else 0
  }

  function FrameCount(c: Coord, force: bool, run: seq<nat>): nat
    requires Ascending(run)
  {
    var n := Merged(c, force, run);
    if n == 0 then |run| else 1 + |run| - n
  }

  function Frame(c: Coord, force: bool, run: seq<nat>, i: nat): Command
    requires Ascending(run) && i < FrameCount(c, force, run)
  {
    var n := Merged(c, force, run);
    if n == 0 then SingleAck(run[i])
    else if i == 0 then Command(SendAck, run[n - 1], true, false, run[..n])
    else SingleAck(run[n + i - 1])
  }

  /** The frames for one run of approved deliveries: a cumulative ack for the part below the first gap when
      that part has at least two tags, individual acks for the rest. */
  function RunCommands(c: Coord, force: bool, run: seq<nat>): (commands: seq<Command>)
    requires Ascending(run)
    ensures |commands| == FrameCount(c, force, run)
    ensures forall i :: 0 <= i < |commands| ==> commands[i] == Frame(c, force, run, i)
  {
    seq(FrameCount(c, force, run), i requires 0 <= i < FrameCount(c, force, run) => Frame(c, force, run, i))
  }

  lemma RunFrameFits(c: Coord, force: bool, run: seq<nat>, i: nat)
    requires Ascending(run) && i < |RunCommands(c, force, run)|
    requires forall t :: t in run ==> AckSafe(c, t)
    ensures var f := RunCommands(c, force, run)[i];
            && CommandFits(c, force, f) && f.kind == SendAck && f.tag in run
            && (forall t :: t in f.covers ==> t in run)
            && (f.multiple ==> i == 0 && forall t :: t in run && t <= f.tag ==> t in f.covers)
            && (i >= 1 && Coalescing(c, force) ==> !BelowGap(c, f.tag))
  {
    var n := Merged(c, force, run);
    var f := RunCommands(c, force, run)[i];
    if f.multiple {
      forall t | t in run && t <= f.tag ensures t in f.covers {
        var k :| 0 <= k < |run| && run[k] == t;
        assert k < n;
        assert run[..n][k] == t;
      }
    }
  }

  lemma RunFramesOrdered(c: Coord, force: bool, run: seq<nat>)
    requires Ascending(run)
    ensures Ordered(RunCommands(c, force, run))
  {
    var cs := RunCommands(c, force, run);
    forall i, j | 0 <= i < j < |cs| ensures cs[i].tag < cs[j].covers[0] {
      var f, g := Frame(c, force, run, i), Frame(c, force, run, j);
    }
  }

  lemma RunFramesCover(c: Coord, force: bool, run: seq<nat>, tag: nat)
    requires Ascending(run)
    ensures tag in run <==> Covered(RunCommands(c, force, run), tag)
  {
    var cs, n := RunCommands(c, force, run), Merged(c, force, run);
    if tag in run {
      var k :| 0 <= k < |run| && run[k] == tag;
      if n > 0 {
        if k < n {
          assert run[..n][k] == tag;
          assert tag in cs[0].covers;
        } else {
          assert tag in cs[k - n + 1].covers;
        }
      } else {
        assert tag in cs[k].covers;
      }
    }
    if Covered(cs, tag) {
      var k :| 0 <= k < |cs| && tag in cs[k].covers;
      assert cs[k] == Frame(c, force, run, k);
    }
  }

  lemma CoveredAppend(a: seq<Command>, b: seq<Command>, tag: nat)
    ensures Covered(a + b, tag) <==> Covered(a, tag) || Covered(b, tag)
  {
    if Covered(a, tag) {
      var k :| 0 <= k < |a| && tag in a[k].covers;
      assert tag in (a + b)[k].covers;
    }
    if Covered(b, tag) {
      var k :| 0 <= k < |b| && tag in b[k].covers;
      assert tag in (a + b)[|a| + k].covers;
    }
  }
}
