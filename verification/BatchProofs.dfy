/** What every step of the batch publisher keeps, and what follows for whole runs. */
module BatchProofs {
  import opened Common
  import opened BatchState

  // ---------------------------------------------------------------- the byte budget

  /** The bytes an item accounts for: reserved for a caller that has not resumed, or admitted and unresolved. */
  function Held(it: Item): nat { if it.entry == Granted then it.size else Released(it) }

  function HeldBytes(items: seq<Item>): nat {
    if items == [] then 0 else HeldBytes(items[..|items| - 1]) + Held(items[|items| - 1])
  }

  lemma {:induction false} HeldUpdate(items: seq<Item>, i: nat, it: Item)
    requires i < |items|
    ensures HeldBytes(items[i := it]) + Held(items[i]) == HeldBytes(items) + Held(it)
    ensures HeldBytes(items) >= Held(items[i])
  {
    var n := |items| - 1;
    if i == n {
      assert items[i := it][..n] == items[..n];
    } else {
      HeldUpdate(items[..n], i, it);
      assert items[i := it][..n] == items[..n][i := it];
    }
  }

  lemma HeldAppend(items: seq<Item>, it: Item)
    ensures HeldBytes(items + [it]) == HeldBytes(items) + Held(it)
  {
    assert (items + [it])[..|items|] == items;
  }

  lemma {:induction false} HeldSame(a: seq<Item>, b: seq<Item>)
    requires |a| == |b| && forall k :: 0 <= k < |a| ==> Held(a[k]) == Held(b[k])
    ensures HeldBytes(a) == HeldBytes(b)
  {
    if a != [] { HeldSame(a[..|a| - 1], b[..|b| - 1]); }
  }

  /** Without a limiter nothing is ever admitted or counted. */
  predicate Unlimited(it: Item) { it.nbytes == 0 && it.entry != Admitting && it.entry != Granted }

  ghost predicate BytesOk(s: State) {
    && s.used == HeldBytes(s.items)
    && match s.cfg.byteLimit
       case None => forall k :: 0 <= k < |s.items| ==> Unlimited(s.items[k])
       case Some(limit) => s.used <= limit
  }

  lemma FinishBytes(s: State, i: nat, o: Outcome)
    requires BytesOk(s) && i < |s.items| && s.items[i].entry != Granted
    ensures BytesOk(FinishItem(s, i, o))
  {
    HeldUpdate(s.items, i, Finish(s.items[i], o));
  }

  lemma {:induction false} FinishEachBytes(s: State, ids: seq<nat>, outcomes: seq<Outcome>)
    requires BytesOk(s) && |ids| == |outcomes| && Below(ids, |s.items|)
    requires forall k :: 0 <= k < |ids| ==> s.items[ids[k]].entry != Granted
    ensures forall k :: 0 <= k < |s.items| ==> FinishEach(s, ids, outcomes).items[k].entry == s.items[k].entry
    ensures BytesOk(FinishEach(s, ids, outcomes))
    decreases |ids|
  {
    var n := |ids|;
    if n > 0 {
      FinishEachBytes(s, ids[..n - 1], outcomes[..n - 1]);
      FinishBytes(FinishEach(s, ids[..n - 1], outcomes[..n - 1]), ids[n - 1], outcomes[n - 1]);
    }
  }

  lemma {:induction false} MarkEachBytes(s: State, ids: seq<nat>, late: set<nat>)
    requires BytesOk(s) && Below(ids, |s.items|)
    requires forall k :: 0 <= k < |ids| ==> s.items[ids[k]].entry != Granted
    ensures forall k :: 0 <= k < |s.items| ==> MarkEach(s, ids, late).items[k].entry == s.items[k].entry
    ensures BytesOk(MarkEach(s, ids, late))
    decreases |ids|
  {
    var n := |ids|;
    if n > 0 {
      MarkEachBytes(s, ids[..n - 1], late);
      MarkBytes(MarkEach(s, ids[..n - 1], late), ids[n - 1], ids[n - 1] in late);
    }
  }

  lemma MarkBytes(s: State, i: nat, late: bool)
    requires BytesOk(s) && i < |s.items| && s.items[i].entry != Granted
    ensures BytesOk(MarkItem(s, i, late)) && |MarkItem(s, i, late).items| == |s.items|
    ensures forall k :: 0 <= k < |s.items| ==> MarkItem(s, i, late).items[k].entry == s.items[k].entry
  {
    if s.items[i].phase == Queued {
      if late { FinishBytes(s, i, Own(NotSent, AdmissionTimeout)); }
      else { HeldUpdate(s.items, i, s.items[i].(phase := Flushing)); }
    }
  }

  // ---------------------------------------------------------------- what resolving does to each item

  lemma {:induction false} FinishEachMisses(s: State, ids: seq<nat>, outcomes: seq<Outcome>, k: nat)
    requires |ids| == |outcomes| && Below(ids, |s.items|) && k < |s.items| && k !in ids
    ensures FinishEach(s, ids, outcomes).items[k] == s.items[k]
    decreases |ids|
  {
    if |ids| > 0 { FinishEachMisses(s, ids[..|ids| - 1], outcomes[..|ids| - 1], k); }
  }

  lemma {:induction false} FinishEachHits(s: State, ids: seq<nat>, outcomes: seq<Outcome>, j: nat)
    requires |ids| == |outcomes| && Below(ids, |s.items|) && NoRepeats(ids) && j < |ids|
    ensures FinishEach(s, ids, outcomes).items[ids[j]] == Finish(s.items[ids[j]], outcomes[j])
    decreases |ids|
  {
    var n := |ids|;
    if j == n - 1 {
      FinishEachMisses(s, ids[..n - 1], outcomes[..n - 1], ids[j]);
    } else {
      FinishEachHits(s, ids[..n - 1], outcomes[..n - 1], j);
    }
  }

  function Mark(it: Item, late: bool): Item {
    if it.phase != Queued then it
    else if late then Finish(it, Own(NotSent, AdmissionTimeout))
    else it.(phase := Flushing)
  }

  lemma {:induction false} MarkEachAt(s: State, ids: seq<nat>, late: set<nat>, k: nat)
    requires Below(ids, |s.items|) && NoRepeats(ids) && k < |s.items|
    ensures MarkEach(s, ids, late).items[k] == if k in ids then Mark(s.items[k], k in late) else s.items[k]
    decreases |ids|
  {
    var n := |ids|;
    if n > 0 {
      var init := ids[..n - 1];
      MarkEachAt(s, init, late, k);
      assert ids == init + [ids[n - 1]];
      assert ids[n - 1] !in init;
    }
  }

  // ---------------------------------------------------------------- invariant

  const TIMED_OUT := Own(TimedOut, PublishTimeout)

  predicate ClaimsNotSent(o: Outcome) { o.own && o.status == NotSent }

  ghost predicate ItemOk(it: Item) {
    && (it.phase == Done <==> it.final.Some?)
    // truthfulness
    && (it.sent ==> it.phase != Queued && (it.final.Some? ==> !ClaimsNotSent(it.final.value)))
    // the caller's view
    && (it.caller == Pending ==> it.phase != Done)
    && (it.caller.Answered? ==>
          && it.phase != Queued
          && (it.caller.outcome == TIMED_OUT || it.final == Some(it.caller.outcome))
          && (it.phase == Flushing ==> it.caller.outcome == TIMED_OUT)
          && (it.caller.outcome == TIMED_OUT && it.phase == Done ==> !ClaimsNotSent(it.final.value)))
    && (it.entry.Finished? ==>
          if it.enqueued then it.caller == Answered(it.entry.outcome)
          else ClaimsNotSent(it.entry.outcome) && (it.phase == Done ==> it.final == Some(it.entry.outcome)))
    // before the queue: bytes are held only while waiting for room
    && (!it.enqueued ==>
          && it.caller == Unset && it.holder == Nowhere && it.phase != Flushing && !it.sent && it.entry != Waiting
          && (it.phase == Queued && it.nbytes > 0 ==> it.entry == Putting))
    && (it.entry == Admitting || it.entry == Granted ==> it.nbytes == 0)
    && (it.entry == Admitting || it.entry == Granted || it.entry == Putting ==> it.phase == Queued && !it.enqueued)
    // in the queue: an unresolved item is kept somewhere, and a queued one still has its timer
    && (it.enqueued ==>
          && it.caller != Unset
          && (it.phase != Done ==> it.holder != Nowhere)
          && (it.phase == Queued ==> it.entry == Waiting)
          && (it.phase == Flushing ==> it.holder.InBatch?))
  }

  ghost predicate ItemsOk(s: State) { forall k :: 0 <= k < |s.items| ==> ItemOk(s.items[k]) }

  /** The queue holds each item once, and exactly those that say so. */
  ghost predicate QueueOk(s: State) {
    && Below(s.pending, |s.items|) && NoRepeats(s.pending) && |s.pending| <= s.cfg.maxInFlight
    && (forall k :: 0 <= k < |s.items| ==> (k in s.pending <==> s.items[k].holder == InQueue))
  }

  /** So does each worker's batch, and `active` covers the batches. */
  ghost predicate BatchOk(s: State, w: nat)
    requires w < |s.workers|
  {
    && Below(s.workers[w].batch, |s.items|) && NoRepeats(s.workers[w].batch)
    && |s.workers[w].batch| <= s.cfg.batchSize
    && (forall k :: 0 <= k < |s.items| ==> (k in s.workers[w].batch <==> s.items[k].holder == InBatch(w)))
  }

  ghost predicate BatchesOk(s: State) {
    && (forall w :: 0 <= w < |s.workers| ==> BatchOk(s, w))
    && (forall k :: 0 <= k < |s.items| ==> (k in s.active <==> s.items[k].holder.InBatch?))
    && (forall k :: k in s.active ==> k < |s.items|)
  }

  /** A flushing item is in the hands of a worker that is in flight, a queued one never is. */
  ghost predicate PlaceOk(s: State, it: Item) {
    && (it.holder.InBatch? ==>
          && it.holder.worker < |s.workers|
          && var place := s.workers[it.holder.worker].place;
             && (it.phase == Flushing ==> place == InFlight)
             && (it.phase == Queued ==> place == Collecting || place == Readying)
             && place != Gone && place != Opening)
    && (it.phase == Flushing ==> it.holder.InBatch?)
  }

  ghost predicate PlacesOk(s: State) { forall k :: 0 <= k < |s.items| ==> PlaceOk(s, s.items[k]) }

  predicate WorkerOk(wk: Worker) {
    && (wk.place == Gone || wk.place == Opening ==> wk.channel == None)
    && (wk.place == InFlight || wk.place == Resolved ==> wk.channel.Some?)
  }

  ghost predicate WorkersOk(s: State) {
    && ValidConfig(s.cfg) && |s.workers| == WorkerCount(s.cfg)
    && (forall w :: 0 <= w < |s.workers| ==> WorkerOk(s.workers[w]))
    && (s.stopped ==> s.closed && forall w :: 0 <= w < |s.workers| ==> s.workers[w].place == Gone)
  }

  /** A channel is held by one worker, or was given back or thrown away exactly once. */
  ghost predicate ChannelOk(s: State, c: nat)
    requires c < |s.channels|
  {
    match s.channels[c].holder
    case Some(w) =>
      && w < |s.workers| && s.workers[w].channel == Some(c)
      && s.channels[c].releases == 0 && s.channels[c].discards == 0
    case None => s.channels[c].releases + s.channels[c].discards == 1
  }

  ghost predicate ChannelsOk(s: State) {
    && (forall w :: 0 <= w < |s.workers| && s.workers[w].channel.Some? ==>
          s.workers[w].channel.value < |s.channels| && s.channels[s.workers[w].channel.value].holder == Some(w))
    && (forall c :: 0 <= c < |s.channels| ==> ChannelOk(s, c))
  }

  ghost predicate Inv(s: State) {
    BytesOk(s) && ItemsOk(s) && QueueOk(s) && BatchesOk(s) && PlacesOk(s) && WorkersOk(s) && ChannelsOk(s)
  }

  lemma InitOk(cfg: Config)
    requires ValidConfig(cfg)
    ensures Inv(Init(cfg))
  {
  }

  lemma HasMember(q: seq<nat>)
    ensures q != [] ==> exists k :: k in q
  {
    if q != [] { assert q[0] in q; }
  }

  // ---------------------------------------------------------------- steps on one item

  /** Changing one item without moving it. */
  ghost predicate Touches(s: State, s': State, i: nat) {
    && i < |s.items| && |s'.items| == |s.items|
    && s' == s.(items := s.items[i := s'.items[i]], used := s'.used)
    && s'.items[i].holder == s.items[i].holder
    && (s'.items[i].phase == Done || s'.items[i].phase == s.items[i].phase)
  }

  lemma TouchKeeps(s: State, s': State, i: nat)
    requires Inv(s) && Touches(s, s', i) && ItemOk(s'.items[i]) && BytesOk(s')
    ensures Inv(s')
  {
    forall k | 0 <= k < |s'.items|
      ensures s'.items[k].holder == s.items[k].holder && PlaceOk(s', s'.items[k]) && ItemOk(s'.items[k])
    {
      assert PlaceOk(s, s.items[k]);
    }
    SameHolders(s, s');
    SameChannels(s, s');
  }

  /** What the queue and the batches say depends only on where items are kept. */
  lemma SameHolders(s: State, s': State)
    requires QueueOk(s) && BatchesOk(s)
    requires s'.pending == s.pending && s'.active == s.active && s'.cfg == s.cfg && |s'.items| == |s.items|
    requires |s'.workers| == |s.workers|
             && forall w :: 0 <= w < |s.workers| ==> s'.workers[w].batch == s.workers[w].batch
    requires forall k :: 0 <= k < |s.items| ==> s'.items[k].holder == s.items[k].holder
    ensures QueueOk(s') && BatchesOk(s')
  {
    forall w | 0 <= w < |s'.workers| ensures BatchOk(s', w) { assert BatchOk(s, w); }
  }

  lemma SameChannels(s: State, s': State)
    requires ChannelsOk(s) && s'.channels == s.channels && |s'.workers| == |s.workers|
    requires forall w :: 0 <= w < |s.workers| ==> s'.workers[w].channel == s.workers[w].channel
    ensures ChannelsOk(s')
  {
    forall c | 0 <= c < |s'.channels| ensures ChannelOk(s', c) { assert ChannelOk(s, c); }
  }

  lemma SameBytes(s: State, i: nat, it: Item)
    requires BytesOk(s) && i < |s.items| && Held(it) == Held(s.items[i]) && (Unlimited(s.items[i]) ==> Unlimited(it))
    ensures BytesOk(s.(items := s.items[i := it]))
  {
    HeldUpdate(s.items, i, it);
  }

  lemma CallerStepKeeps(s: State, step: Step)
    requires Inv(s) && CallerSide(step) && CallerEnabled(s, step)
    requires step.AdmitRefused? || step.AdmitCancelled? || step.Resume? || step.CancelRequest?
    ensures Inv(CallerStep(s, step))
  {
    var s', i := CallerStep(s, step), step.i;
    assert ItemOk(s.items[i]);
    SameBytes(s, i, s'.items[i]);
    TouchKeeps(s, s', i);
  }

  lemma PutFailedKeeps(s: State, step: Step)
    requires Inv(s) && CallerSide(step) && CallerEnabled(s, step) && (step.PutTimedOut? || step.PutCancelled?)
    ensures Inv(CallerStep(s, step))
  {
    var s', i := CallerStep(s, step), step.i;
    var o := if step.PutTimedOut? then Own(NotSent, AdmissionTimeout) else Own(NotSent, CallerCancelled);
    assert ItemOk(s.items[i]);
    FinishBytes(s, i, o);
    SameBytes(FinishItem(s, i, o), i, s'.items[i]);
    TouchKeeps(s, s', i);
  }

  lemma ExpireKeeps(s: State, i: nat)
    requires Inv(s) && CallerEnabled(s, Expire(i))
    ensures Inv(CallerStep(s, Expire(i)))
  {
    var s' := CallerStep(s, Expire(i));
    if s.items[i].phase == Queued {
      FinishBytes(s, i, Own(NotSent, AdmissionTimeout));
    } else {
      SameBytes(s, i, s'.items[i]);
    }
    TouchKeeps(s, s', i);
  }

  lemma CancelDeliverKeeps(s: State, i: nat)
    requires Inv(s) && CallerEnabled(s, CancelDeliver(i))
    ensures Inv(CallerStep(s, CancelDeliver(i)))
  {
    var s' := CallerStep(s, CancelDeliver(i));
    CancelDeliverBytes(s, i);
    assert ItemOk(s.items[i]);
    TouchKeeps(s, s', i);
  }

  lemma CancelDeliverBytes(s: State, i: nat)
    requires BytesOk(s) && ItemsOk(s) && CallerEnabled(s, CancelDeliver(i))
    ensures BytesOk(CallerStep(s, CancelDeliver(i)))
  {
    var s' := CallerStep(s, CancelDeliver(i));
    assert ItemOk(s.items[i]);
    if s.items[i].phase == Queued {
      FinishBytes(s, i, Own(NotSent, CallerCancelled));
      SameBytes(FinishItem(s, i, Own(NotSent, CallerCancelled)), i, s'.items[i]);
    } else {
      SameBytes(s, i, s'.items[i]);
    }
  }

  lemma TransmitKeeps(s: State, w: nat, i: nat)
    requires Inv(s) && Housed(s) && WorkerEnabled(s, Transmit(w, i))
    ensures Inv(WorkerStep(s, Transmit(w, i)))
  {
    SameBytes(s, i, s.items[i].(sent := true));
    TouchKeeps(s, WorkerStep(s, Transmit(w, i)), i);
  }

  // ---------------------------------------------------------------- entering the queue

  lemma NewItemKeeps(s: State, it: Item)
    requires Inv(s) && ItemOk(it) && it.nbytes == 0 && it.holder == Nowhere && it.phase == Queued && it.entry != Granted
    requires s.cfg.byteLimit == None ==> Unlimited(it)
    ensures Inv(s.(items := s.items + [it]))
  {
    var s' := s.(items := s.items + [it]);
    NewItemBytes(s, it);
    NewItemHoused(s, it);
    forall k | 0 <= k < |s'.items| ensures PlaceOk(s', s'.items[k]) && ItemOk(s'.items[k]) {
      if k < |s.items| { assert PlaceOk(s, s.items[k]) && ItemOk(s.items[k]); }
    }
    SameChannels(s, s');
  }

  lemma NewItemBytes(s: State, it: Item)
    requires BytesOk(s) && it.nbytes == 0 && it.entry != Granted && (s.cfg.byteLimit == None ==> Unlimited(it))
    ensures BytesOk(s.(items := s.items + [it]))
  {
    HeldAppend(s.items, it);
  }

  lemma NewItemHoused(s: State, it: Item)
    requires QueueOk(s) && BatchesOk(s) && it.holder == Nowhere
    ensures QueueOk(s.(items := s.items + [it])) && BatchesOk(s.(items := s.items + [it]))
  {
    var s' := s.(items := s.items + [it]);
    forall w | 0 <= w < |s.workers| ensures BatchOk(s', w) { assert BatchOk(s, w); }
  }

  lemma EnqueueKeeps(s: State, i: nat)
    requires Inv(s) && i < |s.items| && s.items[i].entry == Putting && |s.pending| < s.cfg.maxInFlight
    ensures Inv(Enqueue(s, i))
  {
    var s' := Enqueue(s, i);
    assert ItemOk(s.items[i]);
    SameBytes(s, i, s'.items[i]);
    assert BytesOk(s');
    assert i !in s.pending;
    assert forall k :: k in s'.pending <==> k in s.pending || k == i;
    forall w | 0 <= w < |s.workers| ensures BatchOk(s', w) { assert BatchOk(s, w); }
    forall k | 0 <= k < |s.items| ensures PlaceOk(s', s'.items[k]) { assert PlaceOk(s, s.items[k]); }
    SameChannels(s, s');
  }

  lemma TryPutKeeps(s: State, i: nat)
    requires Inv(s) && i < |s.items| && s.items[i].entry == Putting
    ensures Inv(TryPut(s, i))
  {
    if |s.pending| < s.cfg.maxInFlight { EnqueueKeeps(s, i); } else { assert TryPut(s, i) == s; }
  }

  /** From admission to the queue goes through "waiting for room", whether or not it has to wait. */
  lemma TryPutFrom(s: State, i: nat, entry: Entry)
    requires i < |s.items|
    ensures TryPut(s, i) == TryPut(SetEntry(s, i, entry), i)
  {
    assert s.items[i := s.items[i].(entry := entry)][i := s.items[i].(entry := Putting)] ==
           s.items[i := s.items[i].(entry := Putting)];
    if |s.pending| < s.cfg.maxInFlight {
      assert Enqueue(s, i).items == Enqueue(SetEntry(s, i, entry), i).items;
    }
  }

  lemma AdmitResumeKeeps(s: State, i: nat)
    requires Inv(s) && CallerEnabled(s, AdmitResume(i))
    ensures Inv(CallerStep(s, AdmitResume(i)))
  {
    var it := s.items[i];
    var s1 := s.(items := s.items[i := it.(nbytes := it.size)]);
    var s2 := SetEntry(s1, i, Putting);
    assert s2.items == s.items[i := it.(nbytes := it.size, entry := Putting)];
    HeldUpdate(s.items, i, s2.items[i]);
    assert BytesOk(s2);
    TouchKeeps(s, s2, i);
    TryPutKeeps(s2, i);
    TryPutFrom(s1, i, Putting);
  }

  lemma GrantKeeps(s: State, step: Step)
    requires Inv(s) && CallerSide(step) && CallerEnabled(s, step) && (step.AdmitGranted? || step.AdmitHandBack?)
    ensures Inv(CallerStep(s, step))
  {
    var s', i := CallerStep(s, step), step.i;
    HeldUpdate(s.items, i, s'.items[i]);
    TouchKeeps(s, s', i);
  }

  lemma BeginKeeps(s: State, size: nat)
    requires Inv(s)
    ensures Inv(BeginPublish(s, size))
  {
    if s.closed { NewItemKeeps(s, NewItem(size, Finished(Own(NotSent, PublisherClosed)))); }
    else if s.cfg.byteLimit.Some? {
      if size > s.cfg.byteLimit.value { NewItemKeeps(s, NewItem(size, Finished(Own(NotSent, ExceedsByteBudget)))); }
      else { NewItemKeeps(s, NewItem(size, Admitting)); }
    } else {
      NewItemKeeps(s, NewItem(size, Putting));
      TryPutKeeps(s.(items := s.items + [NewItem(size, Putting)]), |s.items|);
    }
  }

  // ---------------------------------------------------------------- workers: channels and places

  /** Replacing one worker whose batch stays: enough that the places still suit its items. */
  lemma WorkerKeeps(s: State, s': State, w: nat)
    requires Inv(s) && w < |s.workers| && |s'.workers| == |s.workers|
    requires s' == s.(workers := s.workers[w := s'.workers[w]], channels := s'.channels)
    requires s'.workers[w].batch == s.workers[w].batch && WorkerOk(s'.workers[w]) && ChannelsOk(s')
    requires s.stopped ==> s'.workers[w].place == Gone
    requires forall k :: k in s.workers[w].batch && k < |s.items| ==> PlaceOk(s', s.items[k])
    ensures Inv(s')
  {
    SameHolders(s, s');
    forall k | 0 <= k < |s.items| ensures PlaceOk(s', s.items[k]) {
      assert PlaceOk(s, s.items[k]) && BatchOk(s, w);
    }
  }

  lemma MoveKeeps(s: State, w: nat, place: Place)
    requires Inv(s) && w < |s.workers| && place in {Collecting, Readying, InFlight, Resolved} && !s.stopped
    requires forall k :: k in s.workers[w].batch && k < |s.items| ==> s.items[k].phase != Flushing
    requires place in {Collecting, Readying}
             || forall k :: k in s.workers[w].batch && k < |s.items| ==> s.items[k].phase == Done
    requires place == InFlight || place == Resolved ==> s.workers[w].channel.Some?
    ensures Inv(MoveTo(s, w, place))
  {
    SameChannels(s, MoveTo(s, w, place));
    assert BatchOk(s, w);
    WorkerKeeps(s, MoveTo(s, w, place), w);
  }

  lemma AcquireKeeps(s: State, w: nat)
    requires Inv(s) && w < |s.workers| && s.workers[w].channel == None
    requires s.workers[w].place == Collecting || s.workers[w].place == Readying
    ensures Inv(AcquireChannel(s, w))
  {
    var s' := AcquireChannel(s, w);
    forall c | 0 <= c < |s'.channels| ensures ChannelOk(s', c) {
      if c < |s.channels| { assert ChannelOk(s, c); }
    }
    assert BatchOk(s, w);
    forall k | k in s.workers[w].batch ensures PlaceOk(s', s.items[k]) { assert PlaceOk(s, s.items[k]); }
    WorkerKeeps(s, s', w);
  }

  lemma GiveBackChannels(s: State, w: nat, discard: bool)
    requires ChannelsOk(s) && w < |s.workers|
    ensures ChannelsOk(GiveBack(s, w, discard))
    ensures GiveBack(s, w, discard).workers == s.workers[w := s.workers[w].(channel := None)]
  {
    var s' := GiveBack(s, w, discard);
    forall c | 0 <= c < |s'.channels| ensures ChannelOk(s', c) { assert ChannelOk(s, c); }
  }

  lemma GiveBackKeeps(s: State, w: nat, discard: bool)
    requires Inv(s) && w < |s.workers| && s.workers[w].place != InFlight && s.workers[w].place != Resolved
    ensures Inv(GiveBack(s, w, discard))
  {
    GiveBackChannels(s, w, discard);
    var s' := GiveBack(s, w, discard);
    assert BatchOk(s, w);
    forall k | k in s.workers[w].batch ensures PlaceOk(s', s.items[k]) { assert PlaceOk(s, s.items[k]); }
    WorkerKeeps(s, s', w);
  }

  lemma OpenStepKeeps(s: State, step: Step)
    requires Inv(s) && !CallerSide(step) && Housed(s) && WorkerEnabled(s, step)
    requires step.Opened? || step.OpenFailed? || step.EndCollect? || step.DropClosed?
    ensures Inv(WorkerStep(s, step))
  {
    var w := step.w;
    NotFlushing(s, w);
    match step
    case Opened(w) =>
      if At(s, w, Opening) {
        MoveKeeps(s, w, Collecting);
        AcquireKeeps(MoveTo(s, w, Collecting), w);
      } else {
        AcquireKeeps(s, w);
      }
    case OpenFailed(w) => MoveKeeps(s, w, Collecting);
    case EndCollect(w) => MoveKeeps(s, w, Readying);
    case DropClosed(w) => GiveBackKeeps(s, w, false);
  }

  /** Only in flight can a worker's item be flushing; once resolved, all of them are. */
  lemma NotFlushing(s: State, w: nat)
    requires BatchesOk(s) && PlacesOk(s) && w < |s.workers|
    ensures forall k :: k in s.workers[w].batch ==> k < |s.items| && s.items[k].holder == InBatch(w)
    ensures s.workers[w].place != InFlight ==>
              forall k :: k in s.workers[w].batch && k < |s.items| ==> s.items[k].phase != Flushing
    ensures s.workers[w].place == Resolved ==>
              forall k :: k in s.workers[w].batch && k < |s.items| ==> s.items[k].phase == Done
    ensures s.workers[w].place == InFlight ==>
              forall k :: k in s.workers[w].batch && k < |s.items| ==> s.items[k].phase != Queued
  {
    assert BatchOk(s, w);
    forall k | k in s.workers[w].batch ensures k < |s.items| && PlaceOk(s, s.items[k]) {}
  }

  // ---------------------------------------------------------------- workers: taking and dropping items

  lemma TailHas(q: seq<nat>, k: nat)
    requires q != [] && NoRepeats(q)
    ensures k in q[1..] <==> k in q && k != q[0]
  {
    assert q == [q[0]] + q[1..];
    if k in q[1..] {
      var j :| 0 <= j < |q[1..]| && q[1..][j] == k;
      assert q[j + 1] == k;
    }
  }

  lemma TakeBatch(s: State, w: nat, v: nat)
    requires w < |s.workers| && v < |s.workers| && BatchOk(s, v) && s.pending != [] && s.pending[0] < |s.items|
    requires s.items[s.pending[0]].holder == InQueue && |s.workers[w].batch| < s.cfg.batchSize
    ensures v < |TakeHead(s, w).workers| && BatchOk(TakeHead(s, w), v)
  {
    var s', i := TakeHead(s, w), s.pending[0];
    assert i !in s.workers[v].batch;
    if v == w && s.items[i].phase == Queued {
      assert forall k :: k in s'.workers[w].batch <==> k in s.workers[w].batch || k == i;
    }
  }

  lemma TakeBatches(s: State, w: nat)
    requires QueueOk(s) && BatchesOk(s) && Housed(s) && WorkerEnabled(s, Take(w))
    ensures QueueOk(TakeHead(s, w)) && BatchesOk(TakeHead(s, w))
  {
    var s', i := TakeHead(s, w), s.pending[0];
    assert i in s.pending && s.items[i].holder == InQueue;
    TakeQueue(s, w);
    forall v | 0 <= v < |s.workers| ensures BatchOk(s', v) {
      assert BatchOk(s, v);
      TakeBatch(s, w, v);
    }
  }

  lemma TakeQueue(s: State, w: nat)
    requires QueueOk(s) && Housed(s) && WorkerEnabled(s, Take(w))
    ensures QueueOk(TakeHead(s, w))
  {
    var s', i := TakeHead(s, w), s.pending[0];
    assert i in s.pending && s.items[i].holder == InQueue;
    forall k ensures k in s'.pending <==> k in s.pending && k != i { TailHas(s.pending, k); }
  }

  lemma TakeKeeps(s: State, w: nat)
    requires Inv(s) && Housed(s) && WorkerEnabled(s, Take(w))
    ensures Inv(WorkerStep(s, Take(w)))
  {
    var s', i := TakeHead(s, w), s.pending[0];
    assert i in s.pending && s.items[i].holder == InQueue && ItemOk(s.items[i]);
    TakeBatches(s, w);
    SameBytes(s, i, s'.items[i]);
    assert BytesOk(s');
    SameChannels(s, s');
    TakePlaces(s, w);
  }

  lemma TakePlaces(s: State, w: nat)
    requires ItemsOk(s) && PlacesOk(s) && Enabled(s, Take(w)) && s.items[s.pending[0]].holder == InQueue
    ensures ItemsOk(TakeHead(s, w)) && PlacesOk(TakeHead(s, w))
  {
    var s' := TakeHead(s, w);
    forall k | 0 <= k < |s'.items| ensures PlaceOk(s', s'.items[k]) && ItemOk(s'.items[k]) {
      assert PlaceOk(s, s.items[k]) && ItemOk(s.items[k]);
    }
  }

  /** A worker whose items are all resolved lets go of them. */
  lemma ClearBatches(s: State, w: nat, place: Place)
    requires QueueOk(s) && BatchesOk(s) && w < |s.workers|
    ensures QueueOk(ClearBatch(s, w, place)) && BatchesOk(ClearBatch(s, w, place))
  {
    var s' := ClearBatch(s, w, place);
    var b := s.workers[w].batch;
    assert BatchOk(s, w);
    forall v | 0 <= v < |s.workers| ensures BatchOk(s', v) { assert BatchOk(s, v); }
  }

  lemma ClearKeeps(s: State, w: nat, place: Place)
    requires Inv(s) && w < |s.workers| && (if s.stopped then place == Gone else place in {Collecting, Gone})
    requires forall k :: k in s.workers[w].batch && k < |s.items| ==> s.items[k].phase == Done
    requires WorkerOk(s.workers[w].(place := place)) || place == Gone
    ensures var s' := ClearBatch(s, w, place);
            && BytesOk(s') && ItemsOk(s') && QueueOk(s') && BatchesOk(s') && PlacesOk(s') && ChannelsOk(s')
            && (WorkerOk(s'.workers[w]) ==> WorkersOk(s'))
  {
    var s' := ClearBatch(s, w, place);
    assert BatchOk(s, w);
    ClearBatches(s, w, place);
    ClearBytes(s, w, place);
    SameChannels(s, s');
    forall k | 0 <= k < |s'.items| ensures PlaceOk(s', s'.items[k]) && ItemOk(s'.items[k]) {
      ClearItem(s, w, place, k);
    }
  }

  lemma ClearBytes(s: State, w: nat, place: Place)
    requires BytesOk(s) && BatchesOk(s) && w < |s.workers|
    ensures BytesOk(ClearBatch(s, w, place))
  {
    assert BatchOk(s, w);
    HeldSame(s.items, ClearBatch(s, w, place).items);
  }

  lemma ClearItem(s: State, w: nat, place: Place, k: nat)
    requires ItemsOk(s) && BatchesOk(s) && PlacesOk(s) && w < |s.workers| && k < |s.items|
    requires forall i :: i in s.workers[w].batch && i < |s.items| ==> s.items[i].phase == Done
    ensures var s' := ClearBatch(s, w, place); k < |s'.items| && PlaceOk(s', s'.items[k]) && ItemOk(s'.items[k])
  {
    assert BatchOk(s, w);
    assert PlaceOk(s, s.items[k]) && ItemOk(s.items[k]);
  }

  /** Resolving ids with outcomes that never deny a send keeps every item's facts. */
  lemma FinishEachItem(s: State, ids: seq<nat>, outcomes: seq<Outcome>, k: nat)
    requires ItemsOk(s) && |ids| == |outcomes| && Below(ids, |s.items|) && NoRepeats(ids) && k < |s.items|
    requires forall j :: 0 <= j < |ids| ==>
               s.items[ids[j]].enqueued && (s.items[ids[j]].phase == Flushing ==> !ClaimsNotSent(outcomes[j]))
    ensures var it := FinishEach(s, ids, outcomes).items[k];
            && ItemOk(it) && it.holder == s.items[k].holder
            && (if k in ids then it.phase == Done else it == s.items[k])
  {
    if k in ids {
      var j :| 0 <= j < |ids| && ids[j] == k;
      FinishEachHits(s, ids, outcomes, j);
      assert ItemOk(s.items[k]);
    } else {
      FinishEachMisses(s, ids, outcomes, k);
    }
  }

  lemma FinishEachKeeps(s: State, ids: seq<nat>, outcomes: seq<Outcome>)
    requires Inv(s) && |ids| == |outcomes| && Below(ids, |s.items|) && NoRepeats(ids)
    requires forall j :: 0 <= j < |ids| ==>
               s.items[ids[j]].enqueued && (s.items[ids[j]].phase == Flushing ==> !ClaimsNotSent(outcomes[j]))
    ensures Inv(FinishEach(s, ids, outcomes))
    ensures forall k :: 0 <= k < |s.items| ==>
              if k in ids then FinishEach(s, ids, outcomes).items[k].phase == Done
              else FinishEach(s, ids, outcomes).items[k] == s.items[k]
    ensures OnlyItems(s, FinishEach(s, ids, outcomes))
  {
    var s' := FinishEach(s, ids, outcomes);
    FinishEachFrame(s, ids, outcomes);
    forall j | 0 <= j < |ids| ensures s.items[ids[j]].entry != Granted { assert ItemOk(s.items[ids[j]]); }
    FinishEachBytes(s, ids, outcomes);
    forall k | 0 <= k < |s.items|
      ensures ItemOk(s'.items[k]) && s'.items[k].holder == s.items[k].holder && PlaceOk(s', s'.items[k])
              && (if k in ids then s'.items[k].phase == Done else s'.items[k] == s.items[k])
    {
      FinishEachItem(s, ids, outcomes, k);
      assert PlaceOk(s, s.items[k]);
    }
    SameHolders(s, s');
    SameChannels(s, s');
  }

  /** Whatever a worker has dequeued was enqueued. */
  lemma BatchEnqueued(s: State, w: nat)
    requires Inv(s) && w < |s.workers|
    ensures forall k :: k in s.workers[w].batch ==> k < |s.items| && s.items[k].enqueued
  {
    assert BatchOk(s, w);
    forall k | k in s.workers[w].batch ensures s.items[k].enqueued { assert ItemOk(s.items[k]); }
  }

  ghost predicate AllDone(s: State, w: nat)
    requires w < |s.workers|
  {
    forall k :: k in s.workers[w].batch && k < |s.items| ==> s.items[k].phase == Done
  }

  /** Nothing that may be on the wire is reported as never sent. */
  ghost predicate Honest(items: seq<Item>, ids: seq<nat>, outcomes: seq<Outcome>)
    requires Below(ids, |items|) && |ids| == |outcomes|
  {
    forall j :: 0 <= j < |ids| && items[ids[j]].phase == Flushing ==> !ClaimsNotSent(outcomes[j])
  }

  lemma ShutdownIsHonest(items: seq<Item>, ids: seq<nat>)
    requires Below(ids, |items|)
    ensures Honest(items, ids, ShutdownOutcomes(items, ids)) && Honest(items, ids, CrashOutcomes(items, ids))
  {
  }

  /** A worker resolves its whole batch. */
  lemma BatchFinished(s: State, w: nat, outcomes: seq<Outcome>)
    requires Inv(s) && w < |s.workers| && |outcomes| == |s.workers[w].batch| && Below(s.workers[w].batch, |s.items|)
    requires Honest(s.items, s.workers[w].batch, outcomes)
    ensures var s1 := FinishEach(s, s.workers[w].batch, outcomes);
            Inv(s1) && s1.workers == s.workers && s1.stopped == s.stopped && AllDone(s1, w)
  {
    var b := s.workers[w].batch;
    assert BatchOk(s, w);
    forall j | 0 <= j < |b| ensures s.items[b[j]].enqueued { assert b[j] in b && ItemOk(s.items[b[j]]); }
    FinishEachKeeps(s, b, outcomes);
  }

  lemma CollectsAgain(s: State, w: nat)
    requires Inv(s) && w < |s.workers| && !s.stopped && AllDone(s, w)
    ensures Inv(ClearBatch(s, w, Collecting))
  {
    ClearKeeps(s, w, Collecting);
  }

  lemma GiveUpKeeps(s: State, w: nat)
    requires Inv(s) && Housed(s) && WorkerEnabled(s, GiveUp(w))
    ensures Inv(WorkerStep(s, GiveUp(w)))
  {
    var outs := Same(|s.workers[w].batch|, Own(NotSent, ChannelUnavailable));
    BatchNotFlushing(s, w);
    BatchFinished(s, w, outs);
    CollectsAgain(FinishEach(s, s.workers[w].batch, outs), w);
  }

  lemma BatchNotFlushing(s: State, w: nat)
    requires Inv(s) && w < |s.workers| && s.workers[w].place != InFlight && Below(s.workers[w].batch, |s.items|)
    ensures forall j :: 0 <= j < |s.workers[w].batch| ==> s.items[s.workers[w].batch[j]].phase != Flushing
  {
    NotFlushing(s, w);
    assert forall j :: 0 <= j < |s.workers[w].batch| ==> s.workers[w].batch[j] in s.workers[w].batch;
  }

  /** The live items of a batch were enqueued, and none of their outcomes says that nothing was sent. */
  lemma LiveEnqueued(s: State, w: nat, live: seq<nat>, outcomes: seq<Outcome>)
    requires Inv(s) && Housed(s) && WorkerEnabled(s, Resolve(w, live, outcomes))
    ensures forall j :: 0 <= j < |live| ==> s.items[live[j]].enqueued && !ClaimsNotSent(outcomes[j])
  {
    BatchEnqueued(s, w);
    forall j | 0 <= j < |live| ensures s.items[live[j]].enqueued && !ClaimsNotSent(outcomes[j]) {
      assert live[j] in live && outcomes[j] in outcomes;
    }
  }

  /** What a flush did not mark was done before it. */
  lemma RestDone(s: State, s1: State, w: nat, live: seq<nat>)
    requires w < |s.workers| && s1.workers == s.workers && |s1.items| == |s.items|
    requires forall k :: k in s.workers[w].batch && k < |s.items| && k !in live ==> s.items[k].phase == Done
    requires forall k :: 0 <= k < |s.items| ==>
               if k in live then s1.items[k].phase == Done else s1.items[k] == s.items[k]
    ensures AllDone(s1, w)
  {
  }

  lemma LiveFinished(s: State, w: nat, live: seq<nat>, outcomes: seq<Outcome>)
    requires Inv(s) && Housed(s) && WorkerEnabled(s, Resolve(w, live, outcomes))
    ensures var s1 := FinishEach(s, live, outcomes);
            Inv(s1) && s1.workers == s.workers && s1.stopped == s.stopped && AllDone(s1, w)
  {
    LiveEnqueued(s, w, live, outcomes);
    FinishEachKeeps(s, live, outcomes);
    NotFlushing(s, w);
    RestDone(s, FinishEach(s, live, outcomes), w, live);
  }

  lemma ResolveKeeps(s: State, w: nat, live: seq<nat>, outcomes: seq<Outcome>)
    requires Inv(s) && Housed(s) && WorkerEnabled(s, Resolve(w, live, outcomes))
    ensures Inv(WorkerStep(s, Resolve(w, live, outcomes)))
  {
    LiveFinished(s, w, live, outcomes);
    assert WorkerOk(s.workers[w]);
    MoveKeeps(FinishEach(s, live, outcomes), w, Resolved);
  }

  lemma EndFlushKeeps(s: State, w: nat)
    requires Inv(s) && Housed(s) && WorkerEnabled(s, EndFlush(w))
    ensures Inv(WorkerStep(s, EndFlush(w)))
  {
    NotFlushing(s, w);
    CollectsAgain(s, w);
  }

  lemma FlushCrashKeeps(s: State, w: nat)
    requires Inv(s) && Housed(s) && w < |s.workers| && !s.stopped
    ensures Inv(CrashFlush(s, w))
  {
    var outs := CrashOutcomes(s.items, s.workers[w].batch);
    ShutdownIsHonest(s.items, s.workers[w].batch);
    BatchFinished(s, w, outs);
    var s1 := FinishEach(s, s.workers[w].batch, outs);
    CollectsAgain(s1, w);
    GiveBackKeeps(ClearBatch(s1, w, Collecting), w, true);
    var s2 := GiveBack(ClearBatch(s1, w, Collecting), w, true);
    assert CrashFlush(s, w) == s2;
  }

  // ---------------------------------------------------------------- starting a flush

  lemma StartFlushItem(s: State, w: nat, late: set<nat>, k: nat)
    requires Inv(s) && Housed(s) && WorkerEnabled(s, StartFlush(w, late)) && k < |s.items|
    ensures var s' := WorkerStep(s, StartFlush(w, late));
            && ItemOk(s'.items[k]) && s'.items[k].holder == s.items[k].holder && PlaceOk(s', s'.items[k])
  {
    var b := s.workers[w].batch;
    assert BatchOk(s, w) && ItemOk(s.items[k]) && PlaceOk(s, s.items[k]);
    MarkEachFrame(s, b, late);
    MarkEachAt(s, b, late, k);
  }

  lemma StartFlushBytes(s: State, w: nat, late: set<nat>)
    requires BytesOk(s) && ItemsOk(s) && BatchesOk(s) && Housed(s) && w < |s.workers|
    ensures BytesOk(MarkEach(s, s.workers[w].batch, late))
  {
    var b := s.workers[w].batch;
    assert BatchOk(s, w);
    forall j | 0 <= j < |b| ensures s.items[b[j]].entry != Granted { assert b[j] in b && ItemOk(s.items[b[j]]); }
    MarkEachBytes(s, b, late);
  }

  lemma StartFlushWorkers(s: State, w: nat, late: set<nat>)
    requires WorkersOk(s) && Housed(s) && WorkerEnabled(s, StartFlush(w, late))
    ensures WorkersOk(WorkerStep(s, StartFlush(w, late)))
  {
    MarkEachFrame(s, s.workers[w].batch, late);
  }

  lemma StartFlushKeeps(s: State, w: nat, late: set<nat>)
    requires Inv(s) && Housed(s) && WorkerEnabled(s, StartFlush(w, late))
    ensures Inv(WorkerStep(s, StartFlush(w, late)))
  {
    var s', b := WorkerStep(s, StartFlush(w, late)), s.workers[w].batch;
    MarkEachFrame(s, b, late);
    StartFlushBytes(s, w, late);
    StartFlushWorkers(s, w, late);
    forall k | 0 <= k < |s.items|
      ensures ItemOk(s'.items[k]) && s'.items[k].holder == s.items[k].holder && PlaceOk(s', s'.items[k])
    {
      StartFlushItem(s, w, late, k);
    }
    SameHolders(s, s');
    SameChannels(s, s');
  }

  // ---------------------------------------------------------------- ending a worker, stopping

  lemma EndWorkerKeeps(s: State, w: nat)
    requires Inv(s) && Housed(s) && w < |s.workers|
    ensures Inv(EndWorker(s, w))
  {
    var outs := ShutdownOutcomes(s.items, s.workers[w].batch);
    ShutdownIsHonest(s.items, s.workers[w].batch);
    BatchFinished(s, w, outs);
    var s1 := FinishEach(s, s.workers[w].batch, outs);
    EndsIdle(s1, w, MidFlush(s, w));
    var s2 := GiveBack(ClearBatch(s1, w, Gone), w, MidFlush(s, w));
    assert EndWorker(s, w) == s2;
  }

  lemma EndsIdle(s: State, w: nat, discard: bool)
    requires Inv(s) && w < |s.workers| && AllDone(s, w)
    ensures Inv(GiveBack(ClearBatch(s, w, Gone), w, discard))
  {
    ClearKeeps(s, w, Gone);
    EndedGivesBack(ClearBatch(s, w, Gone), w, discard);
  }

  /** An ended worker gives its last channel up. */
  lemma EndedGivesBack(s: State, w: nat, discard: bool)
    requires BytesOk(s) && ItemsOk(s) && QueueOk(s) && BatchesOk(s) && PlacesOk(s) && ChannelsOk(s)
    requires w < |s.workers| && s.workers[w].place == Gone && s.workers[w].batch == []
    requires WorkersOk(s.(workers := s.workers[w := s.workers[w].(channel := None)]))
    ensures Inv(GiveBack(s, w, discard))
  {
    GiveBackChannels(s, w, discard);
    var s' := GiveBack(s, w, discard);
    assert s' == s.(channels := s'.channels, workers := s'.workers);
    SameHolders(s, s');
    forall k | 0 <= k < |s.items| ensures PlaceOk(s', s'.items[k]) { assert PlaceOk(s, s.items[k]); }
  }

  /** With every worker ended nothing is active. */
  lemma NothingActive(s: State)
    requires BatchesOk(s) && PlacesOk(s) && forall w :: 0 <= w < |s.workers| ==> s.workers[w].place == Gone
    ensures s.active == {}
    ensures forall k :: 0 <= k < |s.items| ==> !s.items[k].holder.InBatch? && s.items[k].phase != Flushing
  {
    forall k | 0 <= k < |s.items| ensures !s.items[k].holder.InBatch? { assert PlaceOk(s, s.items[k]); }
  }

  /** `stop()` finds no active item, so draining is resolving the queue. */
  lemma DrainIs(s: State, left: seq<nat>)
    requires Inv(s) && Housed(s) && WorkerEnabled(s, StopDrain(left))
    ensures var s1 := FinishEach(s, s.pending, Same(|s.pending|, Own(NotSent, PublisherClosed)));
            WorkerStep(s, StopDrain(left)) ==
              s1.(pending := [], active := {}, items := Rehouse(s1.items, s.pending, Nowhere), stopped := true)
    ensures s.active == {}
  {
    NothingActive(s);
    HasMember(left);
    assert left == [] && s.pending + left == s.pending;
  }

  lemma PendingEnqueued(s: State)
    requires QueueOk(s) && ItemsOk(s)
    ensures forall j :: 0 <= j < |s.pending| ==>
              s.items[s.pending[j]].enqueued && s.items[s.pending[j]].phase != Flushing
  {
    forall j | 0 <= j < |s.pending| ensures s.items[s.pending[j]].enqueued && s.items[s.pending[j]].phase != Flushing {
      assert s.pending[j] in s.pending && ItemOk(s.items[s.pending[j]]);
    }
  }

  lemma StopDrainKeeps(s: State, left: seq<nat>)
    requires Inv(s) && Housed(s) && WorkerEnabled(s, StopDrain(left))
    ensures Inv(WorkerStep(s, StopDrain(left)))
  {
    DrainIs(s, left);
    PendingEnqueued(s);
    var outs := Same(|s.pending|, Own(NotSent, PublisherClosed));
    FinishEachKeeps(s, s.pending, outs);
    DrainedKeeps(FinishEach(s, s.pending, outs), s.pending);
  }

  /** Draining resolves every enqueued item; those still queued are reported as never sent. */
  lemma DrainResolves(s: State, left: seq<nat>, k: nat)
    requires Inv(s) && Housed(s) && WorkerEnabled(s, StopDrain(left)) && k < |s.items| && s.items[k].enqueued
    ensures var it := WorkerStep(s, StopDrain(left)).items[k];
            it.phase == Done &&
            it.final ==
              if s.items[k].phase == Done then s.items[k].final else Some(Own(NotSent, PublisherClosed))
  {
    DrainIs(s, left);
    NothingActive(s);
    var outs := Same(|s.pending|, Own(NotSent, PublisherClosed));
    assert ItemOk(s.items[k]);
    if k in s.pending {
      var j :| 0 <= j < |s.pending| && s.pending[j] == k;
      FinishEachHits(s, s.pending, outs, j);
    } else {
      FinishEachMisses(s, s.pending, outs, k);
    }
  }

  lemma DrainedKeeps(s: State, drained: seq<nat>)
    requires Inv(s) && s.pending == drained && s.closed && s.active == {}
    requires forall k :: k in drained && k < |s.items| ==> s.items[k].phase == Done
    requires forall w :: 0 <= w < |s.workers| ==> s.workers[w].place == Gone
    ensures Inv(s.(pending := [], active := {}, items := Rehouse(s.items, drained, Nowhere), stopped := true))
  {
    var s' := s.(pending := [], active := {}, items := Rehouse(s.items, drained, Nowhere), stopped := true);
    DrainedBytes(s, s', drained);
    DrainedHolders(s, s', drained);
    forall k | 0 <= k < |s.items| ensures PlaceOk(s', s'.items[k]) && ItemOk(s'.items[k]) {
      assert PlaceOk(s, s.items[k]) && ItemOk(s.items[k]);
      DrainedItem(s, s', k);
    }
    SameChannels(s, s');
  }

  lemma DrainedBytes(s: State, s': State, drained: seq<nat>)
    requires BytesOk(s) && s'.items == Rehouse(s.items, drained, Nowhere) && s'.used == s.used && s'.cfg == s.cfg
    ensures BytesOk(s')
  {
    HeldSame(s.items, s'.items);
  }

  lemma DrainedHolders(s: State, s': State, drained: seq<nat>)
    requires QueueOk(s) && BatchesOk(s) && s.pending == drained && s.active == {}
    requires s' == s.(pending := [], active := {}, items := Rehouse(s.items, drained, Nowhere), stopped := true)
    ensures QueueOk(s') && BatchesOk(s')
  {
    forall w | 0 <= w < |s.workers| ensures BatchOk(s', w) { assert BatchOk(s, w); }
  }

  /** An item that leaves the queue is done, and the others stay where they are. */
  lemma DrainedItem(s: State, s': State, k: nat)
    requires k < |s.items| == |s'.items| && s'.workers == s.workers && PlaceOk(s, s.items[k]) && ItemOk(s.items[k])
    requires s'.items[k] == s.items[k] || (s'.items[k] == s.items[k].(holder := Nowhere) && s.items[k].phase == Done)
    ensures PlaceOk(s', s'.items[k]) && ItemOk(s'.items[k])
  {
  }

  lemma StopBeginKeeps(s: State)
    requires Inv(s)
    ensures Inv(s.(closed := true))
  {
    SameHolders(s, s.(closed := true));
    SameChannels(s, s.(closed := true));
    forall k | 0 <= k < |s.items| ensures PlaceOk(s.(closed := true), s.items[k]) { assert PlaceOk(s, s.items[k]); }
  }

  lemma CallerSideKeeps(s: State, step: Step)
    requires Inv(s) && CallerSide(step) && CallerEnabled(s, step)
    ensures Inv(CallerStep(s, step))
  {
    match step
    case Begin(size) => BeginKeeps(s, size);
    case AdmitGranted(i) => GrantKeeps(s, step);
    case AdmitHandBack(i, _) => GrantKeeps(s, step);
    case AdmitResume(i) => AdmitResumeKeeps(s, i);
    case PutGranted(i) => EnqueueKeeps(s, i);
    case PutTimedOut(i) => PutFailedKeeps(s, step);
    case PutCancelled(i) => PutFailedKeeps(s, step);
    case Expire(i) => ExpireKeeps(s, i);
    case CancelDeliver(i) => CancelDeliverKeeps(s, i);
    case _ => CallerStepKeeps(s, step);
  }

  lemma FlushSideKeeps(s: State, step: Step)
    requires Inv(s) && !CallerSide(step) && Housed(s) && WorkerEnabled(s, step)
    requires step.StartFlush? || step.Transmit? || step.Resolve? || step.EndFlush? || step.FlushCrash? || step.GiveUp?
    ensures Inv(WorkerStep(s, step))
  {
    match step
    case GiveUp(w) => GiveUpKeeps(s, w);
    case StartFlush(w, late) => StartFlushKeeps(s, w, late);
    case Transmit(w, i) => TransmitKeeps(s, w, i);
    case Resolve(w, live, outcomes) => ResolveKeeps(s, w, live, outcomes);
    case EndFlush(w) => EndFlushKeeps(s, w);
    case FlushCrash(w) => FlushCrashKeeps(s, w);
  }

  lemma OtherStepKeeps(s: State, step: Step)
    requires Inv(s) && Housed(s) && !CallerSide(step) && WorkerEnabled(s, step)
    requires step.Take? || step.CancelWorker? || step.StopBegin? || step.StopDrain?
    ensures Inv(WorkerStep(s, step))
  {
    match step
    case Take(w) => TakeKeeps(s, w);
    case CancelWorker(w) => EndWorkerKeeps(s, w);
    case StopBegin => StopBeginKeeps(s);
    case StopDrain(left) => StopDrainKeeps(s, left);
  }

  lemma StepKeeps(s: State, step: Step)
    requires Inv(s) && Enabled(s, step)
    ensures Inv(Apply(s, step))
  {
    if CallerSide(step) {
      CallerSideKeeps(s, step);
    } else if step.Opened? || step.OpenFailed? || step.EndCollect? || step.DropClosed? {
      OpenStepKeeps(s, step);
    } else if step.Take? || step.CancelWorker? || step.StopBegin? || step.StopDrain? {
      OtherStepKeeps(s, step);
    } else {
      FlushSideKeeps(s, step);
    }
  }

  lemma HousedOk(s: State)
    requires QueueOk(s) && BatchesOk(s)
    ensures Housed(s)
  {
    forall w | 0 <= w < |s.workers| ensures Below(s.workers[w].batch, |s.items|) { assert BatchOk(s, w); }
  }
}
