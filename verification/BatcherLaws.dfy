/** What holds over all runs of the batcher (x/batch/batcher.go, x/batch/entry.go). */
module BatcherLaws {
  import opened Batcher
  import opened BatcherInvariant

  ghost predicate Reachable(cfg: Config, s: State)
  {
    exists schedule :: s == Run(cfg, Init(cfg), schedule)
  }

  lemma ReachableInv(cfg: Config, s: State)
    requires 1 <= cfg.batchSize && Reachable(cfg, s)
    ensures Inv(cfg, s)
  {
    var schedule :| s == Run(cfg, Init(cfg), schedule);
    RunKeepsInv(cfg, Init(cfg), schedule);
  }

  /** In every interleaving each entered entry is in exactly one place, once: with its producer,
      in the channel, in one worker's batch, or in one flushed batch. */
  lemma ExactlyOnePlace(cfg: Config, s: State, e: nat)
    requires 1 <= cfg.batchSize && Reachable(cfg, s)
    ensures (if At(s, e, Sending) then 1 else 0) + Occ(s.chan, e) + HeldOcc(s.workers, e) + FlushedOcc(s.flushed, e)
            == if e < |s.producers| then 1 else 0
  {
    ReachableInv(cfg, s);
    OccIn(s.sent, e);
    assert e in s.sent ==> Occ(s.sent, e) == 1;
  }

  /** done() is called only after the entry's flush, at most once; a flushed entry that has not
      got its call yet is next in line in exactly one worker. */
  lemma SignalledOnceAfterFlush(cfg: Config, s: State, e: nat)
    requires 1 <= cfg.batchSize && Reachable(cfg, s)
    ensures Occ(s.signalled, e) <= FlushedOcc(s.flushed, e) <= 1
    ensures FlushedOcc(s.flushed, e) == Occ(s.signalled, e) + UnsignalledOcc(s.workers, e)
  {
    ReachableInv(cfg, s);
    OccIn(s.sent, e);
    assert e !in s.sent ==> Occ(s.sent, e) == 0;
  }

  /** EnterAndWait never returns before its entry has been flushed and signalled. */
  lemma WaitReturnsAfterFlush(cfg: Config, s: State, p: nat)
    requires 1 <= cfg.batchSize && Reachable(cfg, s)
    requires At(s, p, Returned) && s.producers[p].waits
    ensures p in s.signalled && FlushedOcc(s.flushed, p) == 1
  {
    ReachableInv(cfg, s);
    SignalledOnceAfterFlush(cfg, s, p);
    OccIn(s.signalled, p);
    assert WaitOver(s, p);
  }

  /** done() never blocks: the one-slot channel of the entry is empty when it is called. */
  lemma SignalNeverBlocks(cfg: Config, s: State, w: nat)
    requires 1 <= cfg.batchSize && Reachable(cfg, s)
    requires IsSignalling(s, w) && s.workers[w].pc.i < |s.workers[w].el|
    ensures Enabled(cfg, s, Signal(w))
  {
    ReachableInv(cfg, s);
    SignalledFirst(s, w);
    var e := s.workers[w].el[s.workers[w].pc.i];
    assert !(e in s.signalled) && !s.token[e];
  }

  /** Batches are neither empty nor larger than the configured size. */
  lemma BatchSizes(cfg: Config, s: State, b: seq<nat>)
    requires 1 <= cfg.batchSize && Reachable(cfg, s) && b in s.flushed
    ensures 1 <= |b| <= cfg.batchSize
  {
    ReachableInv(cfg, s);
  }

  /** There are never more running workers than configured; outside the spinlock, running
      workers, workers about to run and permits left add up to exactly that number. */
  lemma WorkersBounded(cfg: Config, s: State)
    requires 1 <= cfg.batchSize && Reachable(cfg, s)
    ensures WorkerPermits(s.workers) <= cfg.maxWorkers
    ensures WorkerPermits(s.workers) + ProducerPermits(s.producers) + s.ready == cfg.maxWorkers
    ensures s.spin.Free? ==> s.ready >= 0
    ensures s.spin.Free? ==>
              forall p :: 0 <= p < |s.producers| ==> s.producers[p].pc.Permits() == (if s.producers[p].pc.Spawning? then 1 else 0)
  {
    ReachableInv(cfg, s);
    DeniedHasPermit(s);
  }

  lemma DeniedHasPermit(s: State)
    requires SpinOk(s)
    ensures s.ready + ProducerPermits(s.producers) >= 0
  {
    if s.ready < 0 {
      ProducerPermitsAtLeast(s.producers, s.spin.p);
    }
  }

  lemma {:induction false} ProducerPermitsAtLeast(ps: seq<Producer>, p: nat)
    requires p < |ps|
    ensures ps[p].pc.Permits() <= ProducerPermits(ps)
  {
    if p < |ps| - 1 {
      ProducerPermitsAtLeast(ps[..|ps| - 1], p);
    }
  }

  lemma {:induction false} RunConcat(cfg: Config, s: State, a: seq<Action>, b: seq<Action>)
    ensures Run(cfg, s, a + b) == Run(cfg, Run(cfg, s, a), b)
    decreases |a|
  {
    if a == [] {
      assert a + b == b;
    } else {
      assert (a + b)[1..] == a[1..] + b;
      RunConcat(cfg, if Enabled(cfg, s, a[0]) then Do(cfg, s, a[0]) else s, a[1..], b);
    }
  }

  lemma ReachStep(cfg: Config, s: State, a: Action, r: State)
    requires Reachable(cfg, s) && Enabled(cfg, s, a) && Do(cfg, s, a) == r
    ensures Reachable(cfg, r)
  {
    var schedule :| s == Run(cfg, Init(cfg), schedule);
    RunConcat(cfg, Init(cfg), schedule, [a]);
    assert [a][1..] == [];
  }
}
