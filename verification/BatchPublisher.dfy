/** The batch publisher object. Each method is one uninterrupted stretch of the event loop, updates the fields in
    place, and is proved to be the corresponding step of module `BatchState`.
 */
module BatchPublisher {
  import opened Common
  import opened BatchState
  import opened BatchProofs

  /** `_next_item_nowait`: drop items their caller withdrew until a live one turns up. */
  function TakeLive(s: State, w: nat): State
    requires w < |s.workers| && Below(s.pending, |s.items|)
    decreases |s.pending|
  {
    if s.pending == [] then s
    else
      var live := s.items[s.pending[0]].phase == Queued;
      var s1 := TakeHead(s, w);
      if live then s1 else TakeLive(s1, w)
  }

  /** The fast drain of `_collect`: fill the batch from what is already queued. */
  function FastDrain(s: State, w: nat): State
    requires w < |s.workers| && Below(s.pending, |s.items|)
    decreases |s.pending|
  {
    if |s.workers[w].batch| >= s.cfg.batchSize || s.pending == [] then s
    else FastDrain(TakeHead(s, w), w)
  }

  lemma {:induction false} TakeLiveShrinks(s: State, w: nat)
    requires w < |s.workers| && Below(s.pending, |s.items|)
    ensures var s' := TakeLive(s, w);
            && |s'.workers| == |s.workers| && |s'.items| == |s.items| && s'.cfg == s.cfg
            && Below(s'.pending, |s'.items|)
            && (s.pending != [] ==> |s'.pending| < |s.pending|)
            && (s'.workers[w].batch == s.workers[w].batch ==> s'.pending == [])
            && |s'.workers[w].batch| <= |s.workers[w].batch| + 1
    decreases |s.pending|
  {
    if s.pending != [] && s.items[s.pending[0]].phase != Queued { TakeLiveShrinks(TakeHead(s, w), w); }
  }

  /** Taking live items one at a time is the same drain. */
  lemma {:induction false} DrainByLive(s: State, w: nat)
    requires w < |s.workers| && Below(s.pending, |s.items|) && |s.workers[w].batch| < s.cfg.batchSize
    requires Below(TakeLive(s, w).pending, |TakeLive(s, w).items|) && w < |TakeLive(s, w).workers|
    ensures FastDrain(s, w) == FastDrain(TakeLive(s, w), w)
    decreases |s.pending|
  {
    if s.pending != [] && s.items[s.pending[0]].phase != Queued { DrainByLive(TakeHead(s, w), w); }
  }

  /** `finish()` on each item, from the head. */
  function FinishFront(items: seq<Item>, used: nat, ids: seq<nat>, o: Outcome): (seq<Item>, nat)
    requires Below(ids, |items|)
    decreases |ids|
  {
    if ids == [] then (items, used)
    else FinishFront(items[ids[0] := Finish(items[ids[0]], o)], Minus(used, Released(items[ids[0]])), ids[1..], o)
  }

  lemma {:induction false} FrontIsEach(s: State, ids: seq<nat>, o: Outcome)
    requires Below(ids, |s.items|)
    ensures var s' := FinishEach(s, ids, Same(|ids|, o)); FinishFront(s.items, s.used, ids, o) == (s'.items, s'.used)
    decreases |ids|
  {
    if ids != [] {
      var n := |ids| - 1;
      FrontIsEach(s, ids[..n], o);
      FrontLast(s.items, s.used, ids, o);
      assert Same(n + 1, o)[..n] == Same(n, o);
    }
  }

  lemma {:induction false} FrontLast(items: seq<Item>, used: nat, ids: seq<nat>, o: Outcome)
    requires Below(ids, |items|) && ids != []
    ensures var (xs, u) := FinishFront(items, used, ids[..|ids| - 1], o);
            var i := ids[|ids| - 1];
            && |xs| == |items|
            && FinishFront(items, used, ids, o) == (xs[i := Finish(xs[i], o)], Minus(u, Released(xs[i])))
    decreases |ids|
  {
    if |ids| > 1 {
      FrontLast(items[ids[0] := Finish(items[ids[0]], o)], Minus(used, Released(items[ids[0]])), ids[1..], o);
      assert ids[1..][..|ids| - 2] == ids[..|ids| - 1][1..];
    }
  }

  lemma DrainAllParts(s: State, left: seq<nat>)
    requires Housed(s) && Below(left, |s.items|)
    ensures var s1 := FinishEach(s, left, ShutdownOutcomes(s.items, left));
            var (xs, u) := FinishFront(s1.items, s1.used, s.pending, Own(NotSent, PublisherClosed));
            && OnlyItems(s, s1)
            && DrainAll(s, left) ==
               State(s.cfg, Rehouse(xs, s.pending + left, Nowhere), [], {}, s.workers, s.channels, u, s.closed, true)
  {
    FinishEachFrame(s, left, ShutdownOutcomes(s.items, left));
    var s1 := FinishEach(s, left, ShutdownOutcomes(s.items, left));
    FrontIsEach(s1, s.pending, Own(NotSent, PublisherClosed));
    FinishEachFrame(s1, s.pending, Same(|s.pending|, Own(NotSent, PublisherClosed)));
  }

  // ---------------------------------------------------------------- what the methods keep

  /** Outcomes that may be given to these items: each was enqueued once, and none on the wire is called never sent. */
  ghost predicate MayFinish(s: State, ids: seq<nat>, outcomes: seq<Outcome>) {
    && |ids| == |outcomes| && Below(ids, |s.items|) && NoRepeats(ids) && Honest(s.items, ids, outcomes)
    && forall j :: 0 <= j < |ids| ==> s.items[ids[j]].enqueued
  }

  lemma FinishesKeep(s: State, ids: seq<nat>, outcomes: seq<Outcome>)
    ensures Inv(s) && MayFinish(s, ids, outcomes) ==> Inv(FinishEach(s, ids, outcomes))
  {
    if Inv(s) && MayFinish(s, ids, outcomes) { FinishEachKeeps(s, ids, outcomes); }
  }

  lemma FinishKeeps(s: State, i: nat, o: Outcome)
    requires i < |s.items|
    ensures Inv(s) && MayFinish(s, [i], [o]) ==> Inv(FinishItem(s, i, o))
  {
    assert FinishEach(s, [i], [o]) == FinishItem(s, i, o);
    FinishesKeep(s, [i], [o]);
  }

  /** The publisher is in order and the step may be taken. */
  ghost predicate Ready(s: State, step: Step) { Inv(s) && Enabled(s, step) }

  lemma ExpiresKeep(s: State, i: nat)
    requires i < |s.items|
    ensures Ready(s, Step.Expire(i)) ==> Inv(ExpireItem(s, i))
  {
    if Ready(s, Step.Expire(i)) { StepKeeps(s, Step.Expire(i)); }
  }

  lemma FlushesKeep(s: State, w: nat, late: set<nat>)
    requires Enabled(s, StartFlush(w, late))
    ensures Inv(s) ==> Inv(Apply(s, StartFlush(w, late)))
  {
    if Inv(s) { StepKeeps(s, StartFlush(w, late)); }
  }

  lemma FailsKeep(s: State, w: nat)
    requires Housed(s) && w < |s.workers|
    ensures Ready(s, GiveUp(w)) ==> Inv(FailAll(s, w))
  {
    if Ready(s, GiveUp(w)) { StepKeeps(s, GiveUp(w)); }
  }

  lemma DrainsKeep(s: State, left: seq<nat>)
    requires Housed(s) && Below(left, |s.items|)
    ensures Ready(s, StopDrain(left)) ==> Inv(DrainAll(s, left))
  {
    if Ready(s, StopDrain(left)) { StepKeeps(s, StopDrain(left)); }
  }

  lemma EndsKeep(s: State, w: nat)
    requires Housed(s) && w < |s.workers|
    ensures Inv(s) ==> Inv(EndWorker(s, w))
  {
    if Inv(s) { EndWorkerKeeps(s, w); }
  }

  lemma TakeStays(s: State, w: nat)
    requires Inv(s) && At(s, w, Collecting) && |s.workers[w].batch| < s.cfg.batchSize && s.pending != []
    ensures Below(s.pending, |s.items|) && Inv(TakeHead(s, w)) && At(TakeHead(s, w), w, Collecting)
    ensures TakeHead(s, w).cfg == s.cfg
  {
    HousedOk(s);
    TakeKeeps(s, w);
  }

  lemma {:induction false} TakeLiveKeeps(s: State, w: nat)
    requires w < |s.workers| && Below(s.pending, |s.items|)
    ensures Inv(s) && At(s, w, Collecting) && |s.workers[w].batch| < s.cfg.batchSize ==> Inv(TakeLive(s, w))
    decreases |s.pending|
  {
    if s.pending != [] && Inv(s) && At(s, w, Collecting) && |s.workers[w].batch| < s.cfg.batchSize {
      TakeStays(s, w);
      if s.items[s.pending[0]].phase != Queued { TakeLiveKeeps(TakeHead(s, w), w); }
    }
  }

  lemma {:induction false} FastDrainKeeps(s: State, w: nat)
    requires w < |s.workers| && Below(s.pending, |s.items|)
    ensures Inv(s) && At(s, w, Collecting) ==> Inv(FastDrain(s, w))
    decreases |s.pending|
  {
    if s.pending != [] && Inv(s) && At(s, w, Collecting) && |s.workers[w].batch| < s.cfg.batchSize {
      TakeStays(s, w);
      FastDrainKeeps(TakeHead(s, w), w);
    }
  }

  class AsyncBatchPublisher {
    const cfg: Config
    var items: seq<Item>
    var pending: seq<nat>
    var active: set<nat>
    var workers: seq<Worker>
    var channels: seq<Channel>
    var used: nat
    var closed: bool
    var stopped: bool

    ghost function View(): State
      reads this
    {
      State(cfg, items, pending, active, workers, channels, used, closed, stopped)
    }

    constructor (cfg: Config)
      requires ValidConfig(cfg)
      ensures View() == Init(cfg) && Inv(View())
    {
      InitOk(cfg);
      this.cfg := cfg;
      items, pending, active, channels := [], [], {}, [];
      used, closed, stopped := 0, false, false;
      workers := seq(WorkerCount(cfg), _ => Worker(Opening, [], None));
    }

    method FinishOne(i: nat, o: Outcome)
      requires i < |items|
      modifies this`items, this`used
      ensures View() == FinishItem(old(View()), i, o)
      ensures old(Inv(View()) && MayFinish(View(), [i], [o])) ==> Inv(View())
    {
      FinishKeeps(View(), i, o);
      if items[i].phase == Done {
        assert items[i := items[i]] == items;
        return;
      }
      var it := items[i];
      used := if used > it.nbytes then used - it.nbytes else 0;
      var caller := if it.caller == Pending then Answered(o) else it.caller;
      items := items[i := it.(phase := Done, final := Some(o), caller := caller)];
    }

    method FinishAll(ids: seq<nat>, outcomes: seq<Outcome>)
      requires |ids| == |outcomes| && Below(ids, |items|)
      modifies this`items, this`used
      ensures View() == FinishEach(old(View()), ids, outcomes)
      ensures old(Inv(View()) && MayFinish(View(), ids, outcomes)) ==> Inv(View())
    {
      FinishesKeep(View(), ids, outcomes);
      FinishInTurn(ids, outcomes);
    }

    method FinishInTurn(ids: seq<nat>, outcomes: seq<Outcome>)
      requires |ids| == |outcomes| && Below(ids, |items|)
      modifies this`items, this`used
      ensures View() == FinishEach(old(View()), ids, outcomes)
    {
      for j := 0 to |ids|
        invariant |items| == |old(items)|
        invariant View() == FinishEach(old(View()), ids[..j], outcomes[..j])
      {
        FinishOne(ids[j], outcomes[j]);
        assert ids[..j + 1][..j] == ids[..j] && outcomes[..j + 1][..j] == outcomes[..j];
      }
      assert ids[..|ids|] == ids && outcomes[..|ids|] == outcomes;
    }

    /** The timer of one call. */
    method Expire(i: nat)
      requires i < |items|
      modifies this`items, this`used
      ensures View() == ExpireItem(old(View()), i)
      ensures old(Ready(View(), Step.Expire(i))) ==> Inv(View())
    {
      ExpiresKeep(View(), i);
      if items[i].phase == Queued {
        FinishOne(i, Own(NotSent, AdmissionTimeout));
      } else if items[i].phase == Flushing && items[i].caller == Pending {
        items := items[i := items[i].(caller := Answered(Own(TimedOut, PublishTimeout)))];
      }
    }

    method NextItemNowait(w: nat)
      requires w < |workers| && Below(pending, |items|)
      modifies this`items, this`pending, this`active, this`workers
      ensures View() == TakeLive(old(View()), w)
      ensures old(Inv(View()) && At(View(), w, Collecting) && |workers[w].batch| < cfg.batchSize) ==> Inv(View())
    {
      TakeLiveKeeps(View(), w);
      while pending != []
        invariant w < |workers| && Below(pending, |items|)
        invariant TakeLive(View(), w) == TakeLive(old(View()), w)
        decreases |pending|
      {
        var i := pending[0];
        pending := pending[1..];
        if items[i].phase == Queued {
          active := active + {i};
          items := items[i := items[i].(holder := InBatch(w))];
          workers := workers[w := workers[w].(batch := workers[w].batch + [i])];
          return;
        }
        items := items[i := items[i].(holder := Nowhere)];
      }
    }

    method Drain(w: nat)
      requires w < |workers| && Below(pending, |items|)
      modifies this`items, this`pending, this`active, this`workers
      ensures View() == FastDrain(old(View()), w)
      ensures old(Inv(View()) && At(View(), w, Collecting)) ==> Inv(View())
    {
      FastDrainKeeps(View(), w);
      while |workers[w].batch| < cfg.batchSize
        invariant w < |workers| && Below(pending, |items|)
        invariant FastDrain(View(), w) == FastDrain(old(View()), w)
        decreases |pending|
      {
        if pending == [] { return; }
        TakeLiveShrinks(View(), w);
        DrainByLive(View(), w);
        NextItemNowait(w);
      }
    }

    /** The first loop of `_flush`; the clock says which deadlines have passed. */
    method MarkBatch(w: nat, late: set<nat>)
      requires Enabled(View(), StartFlush(w, late))
      modifies this`items, this`used, this`workers
      ensures View() == Apply(old(View()), StartFlush(w, late)) && (old(Inv(View())) ==> Inv(View()))
    {
      FlushesKeep(View(), w, late);
      var b := workers[w].batch;
      for j := 0 to |b|
        invariant |items| == |old(items)| && workers == old(workers)
        invariant View() == MarkEach(old(View()), b[..j], late)
      {
        var i := b[j];
        if items[i].phase == Queued {
          if i in late {
            FinishOne(i, Own(NotSent, AdmissionTimeout));
          } else {
            items := items[i := items[i].(phase := Flushing)];
          }
        }
        assert b[..j + 1][..j] == b[..j];
      }
      assert b[..|b|] == b;
      workers := workers[w := workers[w].(place := InFlight)];
    }

    method LetGo(w: nat, place: Place)
      requires w < |workers|
      modifies this`items, this`active, this`workers
      ensures View() == ClearBatch(old(View()), w, place)
    {
      var b := workers[w].batch;
      active := active - (set i | i in b);
      items := Rehouse(items, b, Nowhere);
      workers := workers[w := workers[w].(batch := [], place := place)];
    }

    method GiveChannel(w: nat, discard: bool)
      requires w < |workers|
      modifies this`channels, this`workers
      ensures View() == GiveBack(old(View()), w, discard)
    {
      match workers[w].channel
      case None =>
      case Some(c) =>
        if c < |channels| {
          var ch := channels[c];
          channels := channels[c := Channel(None, if discard then ch.releases else ch.releases + 1,
                                                  if discard then ch.discards + 1 else ch.discards)];
          workers := workers[w := workers[w].(channel := None)];
        }
    }

    /** No channel could be acquired for the batch. */
    method FailBatch(w: nat)
      requires Housed(View()) && w < |workers|
      modifies this`items, this`used, this`active, this`workers
      ensures View() == FailAll(old(View()), w)
      ensures old(Ready(View(), GiveUp(w))) ==> Inv(View())
    {
      FailsKeep(View(), w);
      var b := workers[w].batch;
      FinishAll(b, Same(|b|, Own(NotSent, ChannelUnavailable)));
      LetGo(w, Collecting);
    }

    /** A worker cancelled by `stop()`, or crashed. */
    method Cancelled(w: nat)
      requires Housed(View()) && w < |workers|
      modifies this`items, this`used, this`active, this`workers, this`channels
      ensures View() == EndWorker(old(View()), w) && (old(Inv(View())) ==> Inv(View()))
    {
      EndsKeep(View(), w);
      var b := workers[w].batch;
      var midFlush := exists i :: i in b && i < |items| && items[i].phase == Flushing;
      FinishAll(b, ShutdownOutcomes(items, b));
      LetGo(w, Gone);
      GiveChannel(w, midFlush);
    }

    /** The end of `stop()`: the active set in some order, then the queue from its head. */
    method FinishStop(left: seq<nat>)
      requires Housed(View()) && Below(left, |items|)
      modifies this`items, this`used, this`active, this`pending, this`stopped
      ensures View() == DrainAll(old(View()), left)
      ensures old(Ready(View(), StopDrain(left))) ==> Inv(View())
    {
      ghost var was := View();
      DrainLeft(left);
      DrainsKeep(was, left);
    }

    method DrainLeft(left: seq<nat>)
      requires Housed(View()) && Below(left, |items|)
      modifies this`items, this`used, this`active, this`pending, this`stopped
      ensures View() == DrainAll(old(View()), left)
    {
      DrainAllParts(View(), left);
      FinishInTurn(left, ShutdownOutcomes(items, left));
      active := {};
      var drained := DrainQueue();
      items := Rehouse(items, drained + left, Nowhere);
      stopped := true;
    }

    method DrainQueue() returns (drained: seq<nat>)
      requires Below(pending, |items|)
      modifies this`items, this`used, this`pending
      ensures drained == old(pending) && pending == []
      ensures (items, used) == FinishFront(old(items), old(used), drained, Own(NotSent, PublisherClosed))
    {
      drained := pending;
      while pending != []
        invariant Below(pending, |items|)
        invariant FinishFront(items, used, pending, Own(NotSent, PublisherClosed)) ==
                  FinishFront(old(items), old(used), drained, Own(NotSent, PublisherClosed))
        decreases |pending|
      {
        var i := pending[0];
        FinishOne(i, Own(NotSent, PublisherClosed));
        pending := pending[1..];
      }
    }
  }
}
