/** When an entry in the batcher's channel can still be flushed (x/batch/batcher.go:98-201): exactly
    when some goroutine will still look into the channel. A worker that has found the channel
    empty gives its permit back without looking again, and a producer that is refused a permit in
    the meantime relies on it; the entry then waits for the next call of Enter. */
module BatcherLiveness {
  import opened Batcher
  import opened BatcherInvariant
  import opened BatcherLaws

  /** Nobody enters anything. */
  ghost predicate NoCalls(schedule: seq<Action>)
  {
    forall a :: a in schedule ==> !a.Call?
  }

  /** The entry can be flushed by the goroutines that are there. */
  ghost predicate CanBeFlushed(cfg: Config, s: State, e: nat)
  {
    exists schedule :: NoCalls(schedule) && FlushedOcc(Run(cfg, s, schedule).flushed, e) > 0
  }

  /** The worker will receive from the channel again. */
  predicate WorkerLooks(cfg: Config, w: Worker)
  {
    match w.pc
    case Receiving => true
    case Deciding => w.el != [] || cfg.minWait
    case Locking => w.el != []
    case Locked => w.el != []
    case Leaving => false
    case Flushing => true
    case Signalling(_) => true
    case Exited => false
  }

  /** The producer will start a worker, or bring about that there is one. */
  predicate ProducerLooks(cfg: Config, s: State, p: nat)
    requires p < |s.producers|
  {
    match s.producers[p].pc
    case Sending => |s.chan| < cfg.batchSize
    case Starting => true
    case Counting => s.ready > 0
    case Granted => true
    case Denied => false
    case Restored => false
    case Spawning => true
    case Started => false
    case Returned => false
  }

  ghost predicate SomebodyLooks(cfg: Config, s: State)
  {
    || (exists w: nat :: w < |s.workers| && WorkerLooks(cfg, s.workers[w]))
    || (exists p: nat :: p < |s.producers| && ProducerLooks(cfg, s, p))
  }

  // ---------------------------------------------------------------------------------------
  // If nobody looks, nothing is flushed
  // ---------------------------------------------------------------------------------------

  /** The entries in the channel are stranded. */
  ghost predicate Stranded(cfg: Config, s: State)
  {
    s.chan != [] && !SomebodyLooks(cfg, s)
  }

  lemma StrandedWorker(cfg: Config, s: State, a: Action)
    requires SpinOk(s) && Stranded(cfg, s) && Enabled(cfg, s, a) && Mover(a) >= 0
    ensures var r := Do(cfg, s, a);
            && Stranded(cfg, r) && r.chan == s.chan && r.flushed == s.flushed
  {
    var r, w := Do(cfg, s, a), Mover(a);
    assert !WorkerLooks(cfg, s.workers[w]);
    assert !WorkerLooks(cfg, r.workers[w]);
    forall p: nat | p < |r.producers| ensures !ProducerLooks(cfg, r, p) {
      assert !ProducerLooks(cfg, s, p);
    }
    forall v: nat | v < |r.workers| ensures !WorkerLooks(cfg, r.workers[v]) {
      assert v != w ==> r.workers[v] == s.workers[v];
    }
  }

  lemma StrandedProducer(cfg: Config, s: State, a: Action)
    requires SpinOk(s) && Stranded(cfg, s) && Enabled(cfg, s, a) && Mover(a) < 0 && !a.Call?
    ensures var r := Do(cfg, s, a);
            && Stranded(cfg, r) && r.chan == s.chan && r.flushed == s.flushed
  {
    var r := Do(cfg, s, a);
    assert !ProducerLooks(cfg, s, a.p);
    assert r.workers == s.workers;
    forall p: nat | p < |r.producers| ensures !ProducerLooks(cfg, r, p) {
      assert !ProducerLooks(cfg, s, p);
    }
    forall v: nat | v < |r.workers| ensures !WorkerLooks(cfg, r.workers[v]) {
      assert r.workers[v] == s.workers[v];
    }
  }

  /** A stranded entry stays stranded until somebody enters another one. */
  lemma {:induction false} StrandedUntilNextEnter(cfg: Config, s: State, schedule: seq<Action>)
    requires 1 <= cfg.batchSize && Reachable(cfg, s) && Stranded(cfg, s) && NoCalls(schedule)
    ensures var r := Run(cfg, s, schedule);
            && Stranded(cfg, r) && r.chan == s.chan && r.flushed == s.flushed
    decreases |schedule|
  {
    if schedule != [] {
      var a := schedule[0];
      assert a in schedule && NoCalls(schedule[1..]);
      if Enabled(cfg, s, a) {
        StrandedStep(cfg, s, a);
        StrandedUntilNextEnter(cfg, Do(cfg, s, a), schedule[1..]);
      } else {
        StrandedUntilNextEnter(cfg, s, schedule[1..]);
      }
    }
  }

  lemma StrandedStep(cfg: Config, s: State, a: Action)
    requires 1 <= cfg.batchSize && Reachable(cfg, s) && Stranded(cfg, s) && Enabled(cfg, s, a) && !a.Call?
    ensures var r := Do(cfg, s, a);
            && Reachable(cfg, r) && Stranded(cfg, r) && r.chan == s.chan && r.flushed == s.flushed
  {
    ReachableInv(cfg, s);
    ReachStep(cfg, s, a, Do(cfg, s, a));
    if Mover(a) >= 0 {
      StrandedWorker(cfg, s, a);
    } else {
      StrandedProducer(cfg, s, a);
    }
  }

  /** What is in the channel has not been flushed. */
  lemma WaitingIsNotFlushed(cfg: Config, s: State)
    requires 1 <= cfg.batchSize && Reachable(cfg, s) && s.chan != []
    ensures FlushedOcc(s.flushed, s.chan[0]) == 0
  {
    ExactlyOnePlace(cfg, s, s.chan[0]);
    OccIn(s.chan, s.chan[0]);
  }

  /** Without permits there is never a worker that could flush. */
  lemma {:induction false} NoPermitsNoFlush(cfg: Config, s: State, schedule: seq<Action>)
    requires 1 <= cfg.batchSize && Reachable(cfg, s) && cfg.maxWorkers == 0
    ensures Run(cfg, s, schedule).flushed == s.flushed
    decreases |schedule|
  {
    if schedule != [] {
      var a := schedule[0];
      if Enabled(cfg, s, a) {
        if a.Flush? {
          WorkersBounded(cfg, s);
          WorkerPermitsAtLeast(s.workers, a.w);
        }
        ReachStep(cfg, s, a, Do(cfg, s, a));
        NoPermitsNoFlush(cfg, Do(cfg, s, a), schedule[1..]);
      } else {
        NoPermitsNoFlush(cfg, s, schedule[1..]);
      }
    }
  }

  lemma {:induction false} WorkerPermitsAtLeast(ws: seq<Worker>, w: nat)
    requires w < |ws|
    ensures ws[w].Permits() <= WorkerPermits(ws)
  {
    if w < |ws| - 1 {
      WorkerPermitsAtLeast(ws[..|ws| - 1], w);
    }
  }

  // ---------------------------------------------------------------------------------------
  // If somebody looks, the entry gets flushed
  // ---------------------------------------------------------------------------------------

  lemma NextStep(cfg: Config, s: State, a: Action, e: nat)
    requires Enabled(cfg, s, a) && !a.Call? && CanBeFlushed(cfg, Do(cfg, s, a), e)
    ensures CanBeFlushed(cfg, s, e)
  {
    var rest :| NoCalls(rest) && FlushedOcc(Run(cfg, Do(cfg, s, a), rest).flushed, e) > 0;
    var schedule := [a] + rest;
    assert schedule[1..] == rest;
    assert NoCalls(schedule);
  }

  /** What the goroutine that holds the spinlock does next. */
  function HolderStep(s: State): Action
    requires SpinOk(s) && !s.spin.Free?
  {
    match s.spin
    case ByProducer(p) =>
      if s.producers[p].pc.Counting? then Count(p) else if s.producers[p].pc.Denied? then Restore(p) else UnlockP(p)
    case ByWorker(w) =>
      if s.workers[w].pc.Locked? && s.workers[w].el == [] then Give(w) else UnlockW(w)
  }

  /** How many steps it is away from giving the lock back. */
  function HolderDistance(s: State): nat
    requires SpinOk(s)
  {
    match s.spin
    case Free => 0
    case ByProducer(p) =>
      if s.producers[p].pc.Counting? then 3 else if s.producers[p].pc.Denied? then 2 else 1
    case ByWorker(w) =>
      if s.workers[w].pc.Locked? && s.workers[w].el == [] then 2 else 1
  }

  /** Every other goroutine, and the channel, are as they were. */
  predicate OnlyHolderMoved(s: State, r: State)
  {
    && r.chan == s.chan
    && |r.workers| == |s.workers| && |r.producers| == |s.producers|
    && (forall w: nat | w < |s.workers| && s.spin != ByWorker(w) :: r.workers[w] == s.workers[w])
    && (forall p: nat | p < |s.producers| && s.spin != ByProducer(p) :: r.producers[p] == s.producers[p])
  }

  lemma HolderSteps(cfg: Config, s: State)
    requires SpinOk(s) && !s.spin.Free?
    ensures Enabled(cfg, s, HolderStep(s))
    ensures var r := Do(cfg, s, HolderStep(s));
            && OnlyHolderMoved(s, r)
            && (SpinOk(r) ==> HolderDistance(r) < HolderDistance(s) && (r.spin == s.spin || r.spin.Free?))
  {
  }

  /** The lock can be had: its holder gives it back after at most three steps. */
  lemma {:induction false} LockComesFree(cfg: Config, s: State, n: nat) returns (r: State, schedule: seq<Action>)
    requires 1 <= cfg.batchSize && Reachable(cfg, s) && SpinOk(s) && HolderDistance(s) <= n
    ensures Reachable(cfg, r) && NoCalls(schedule) && r == Run(cfg, s, schedule)
    ensures r.spin.Free? && OnlyHolderMoved(s, r)
    decreases n
  {
    if s.spin.Free? {
      r, schedule := s, [];
    } else {
      var a := HolderStep(s);
      HolderSteps(cfg, s);
      var t := Do(cfg, s, a);
      ReachStep(cfg, s, a, t);
      ReachableInv(cfg, t);
      var rest;
      r, rest := LockComesFree(cfg, t, n - 1);
      schedule := [a] + rest;
      assert schedule[1..] == rest;
    }
  }

  lemma Later(cfg: Config, s: State, schedule: seq<Action>, e: nat)
    requires NoCalls(schedule) && CanBeFlushed(cfg, Run(cfg, s, schedule), e)
    ensures CanBeFlushed(cfg, s, e)
  {
    var rest :| NoCalls(rest) && FlushedOcc(Run(cfg, Run(cfg, s, schedule), rest).flushed, e) > 0;
    var whole := schedule + rest;
    RunConcat(cfg, s, schedule, rest);
    assert NoCalls(whole) && Run(cfg, s, whole) == Run(cfg, Run(cfg, s, schedule), rest);
  }

  // A worker with the entry in its batch.

  lemma FlushingFlushes(cfg: Config, s: State, w: nat, e: nat)
    requires WorkerAt(s, w, Flushing) && e in s.workers[w].el
    ensures CanBeFlushed(cfg, s, e)
  {
    AddBatch(s.flushed, s.workers[w].el, e);
    OccIn(s.workers[w].el, e);
    var r := Do(cfg, s, Flush(w));
    assert Run(cfg, r, []) == r;
    NextStep(cfg, s, Flush(w), e);
  }

  lemma LockedFlushes(cfg: Config, s: State, w: nat, e: nat)
    requires WorkerAt(s, w, Locked) && e in s.workers[w].el
    ensures CanBeFlushed(cfg, s, e)
  {
    FlushingFlushes(cfg, Do(cfg, s, UnlockW(w)), w, e);
    NextStep(cfg, s, UnlockW(w), e);
  }

  lemma LockingFlushes(cfg: Config, s: State, w: nat, e: nat)
    requires 1 <= cfg.batchSize && Reachable(cfg, s)
    requires WorkerAt(s, w, Locking) && e in s.workers[w].el
    ensures CanBeFlushed(cfg, s, e)
  {
    ReachableInv(cfg, s);
    var r, schedule := LockComesFree(cfg, s, HolderDistance(s));
    LockedFlushes(cfg, Do(cfg, r, LockW(w)), w, e);
    NextStep(cfg, r, LockW(w), e);
    Later(cfg, s, schedule, e);
  }

  lemma DecidingFlushes(cfg: Config, s: State, w: nat, e: nat)
    requires 1 <= cfg.batchSize && Reachable(cfg, s)
    requires WorkerAt(s, w, Deciding) && e in s.workers[w].el
    ensures CanBeFlushed(cfg, s, e)
  {
    ReachStep(cfg, s, Proceed(w), Do(cfg, s, Proceed(w)));
    LockingFlushes(cfg, Do(cfg, s, Proceed(w)), w, e);
    NextStep(cfg, s, Proceed(w), e);
  }

  /** A worker that receives ends up with the first entry of the channel in its batch, and
      flushes it. */
  lemma {:induction false} ReceivingFlushes(cfg: Config, s: State, w: nat, e: nat)
    requires 1 <= cfg.batchSize && Reachable(cfg, s) && WorkerAt(s, w, Receiving)
    requires e in s.workers[w].el || (s.chan != [] && s.chan[0] == e)
    ensures CanBeFlushed(cfg, s, e)
    decreases |s.chan|
  {
    var a := if s.chan == [] then Drained(w) else Take(w);
    var r := Do(cfg, s, a);
    ReachStep(cfg, s, a, r);
    assert e in r.workers[w].el;
    if r.workers[w].pc.Receiving? {
      ReceivingFlushes(cfg, r, w, e);
    } else {
      DecidingFlushes(cfg, r, w, e);
    }
    NextStep(cfg, s, a, e);
  }

  // A worker that will receive again.

  lemma {:induction false} SignallingLooks(cfg: Config, s: State, w: nat)
    requires 1 <= cfg.batchSize && Reachable(cfg, s) && s.chan != [] && IsSignalling(s, w)
    requires s.workers[w].pc.i <= |s.workers[w].el|
    ensures CanBeFlushed(cfg, s, s.chan[0])
    decreases |s.workers[w].el| - s.workers[w].pc.i
  {
    if s.workers[w].pc.i < |s.workers[w].el| {
      SignalNeverBlocks(cfg, s, w);
      ReachStep(cfg, s, Signal(w), Do(cfg, s, Signal(w)));
      SignallingLooks(cfg, Do(cfg, s, Signal(w)), w);
      NextStep(cfg, s, Signal(w), s.chan[0]);
    } else {
      ReachStep(cfg, s, Again(w), Do(cfg, s, Again(w)));
      ReceivingFlushes(cfg, Do(cfg, s, Again(w)), w, s.chan[0]);
      NextStep(cfg, s, Again(w), s.chan[0]);
    }
  }

  lemma FlushingLooks(cfg: Config, s: State, w: nat)
    requires 1 <= cfg.batchSize && Reachable(cfg, s) && s.chan != [] && WorkerAt(s, w, Flushing)
    ensures CanBeFlushed(cfg, s, s.chan[0])
  {
    ReachStep(cfg, s, Flush(w), Do(cfg, s, Flush(w)));
    SignallingLooks(cfg, Do(cfg, s, Flush(w)), w);
    NextStep(cfg, s, Flush(w), s.chan[0]);
  }

  lemma LockedLooks(cfg: Config, s: State, w: nat)
    requires 1 <= cfg.batchSize && Reachable(cfg, s) && s.chan != []
    requires WorkerAt(s, w, Locked) && s.workers[w].el != []
    ensures CanBeFlushed(cfg, s, s.chan[0])
  {
    ReachStep(cfg, s, UnlockW(w), Do(cfg, s, UnlockW(w)));
    FlushingLooks(cfg, Do(cfg, s, UnlockW(w)), w);
    NextStep(cfg, s, UnlockW(w), s.chan[0]);
  }

  lemma LockingLooks(cfg: Config, s: State, w: nat)
    requires 1 <= cfg.batchSize && Reachable(cfg, s) && s.chan != []
    requires WorkerAt(s, w, Locking) && s.workers[w].el != []
    ensures CanBeFlushed(cfg, s, s.chan[0])
  {
    ReachableInv(cfg, s);
    var r, schedule := LockComesFree(cfg, s, HolderDistance(s));
    ReachStep(cfg, r, LockW(w), Do(cfg, r, LockW(w)));
    LockedLooks(cfg, Do(cfg, r, LockW(w)), w);
    NextStep(cfg, r, LockW(w), s.chan[0]);
    Later(cfg, s, schedule, s.chan[0]);
  }

  lemma DecidingLooks(cfg: Config, s: State, w: nat)
    requires 1 <= cfg.batchSize && Reachable(cfg, s) && s.chan != []
    requires WorkerAt(s, w, Deciding) && (s.workers[w].el != [] || cfg.minWait)
    ensures CanBeFlushed(cfg, s, s.chan[0])
  {
    var a := if s.workers[w].el == [] then Nap(w) else Proceed(w);
    var r := Do(cfg, s, a);
    ReachStep(cfg, s, a, r);
    if s.workers[w].el == [] {
      ReceivingFlushes(cfg, r, w, s.chan[0]);
    } else {
      LockingLooks(cfg, r, w);
    }
    NextStep(cfg, s, a, s.chan[0]);
  }

  lemma WorkerFlushes(cfg: Config, s: State, w: nat)
    requires 1 <= cfg.batchSize && Reachable(cfg, s) && s.chan != []
    requires w < |s.workers| && WorkerLooks(cfg, s.workers[w])
    ensures CanBeFlushed(cfg, s, s.chan[0])
  {
    match s.workers[w].pc
    case Receiving => ReceivingFlushes(cfg, s, w, s.chan[0]);
    case Deciding => DecidingLooks(cfg, s, w);
    case Locking => LockingLooks(cfg, s, w);
    case Locked => LockedLooks(cfg, s, w);
    case Flushing => FlushingLooks(cfg, s, w);
    case Signalling(_) =>
      SignallingBounded(cfg, s, w);
      SignallingLooks(cfg, s, w);
  }

  lemma SignallingBounded(cfg: Config, s: State, w: nat)
    requires 1 <= cfg.batchSize && Reachable(cfg, s) && IsSignalling(s, w)
    ensures s.workers[w].pc.i <= |s.workers[w].el|
  {
    ReachableInv(cfg, s);
    assert WorkerShape(cfg, s.workers[w]);
  }

  // A producer that will start a worker.

  lemma SpawningFlushes(cfg: Config, s: State, p: nat)
    requires 1 <= cfg.batchSize && Reachable(cfg, s) && s.chan != [] && At(s, p, Spawning)
    ensures CanBeFlushed(cfg, s, s.chan[0])
  {
    var r := Do(cfg, s, Spawn(p));
    ReachStep(cfg, s, Spawn(p), r);
    ReceivingFlushes(cfg, r, |s.workers|, s.chan[0]);
    NextStep(cfg, s, Spawn(p), s.chan[0]);
  }

  lemma GrantedFlushes(cfg: Config, s: State, p: nat)
    requires 1 <= cfg.batchSize && Reachable(cfg, s) && s.chan != [] && At(s, p, Granted)
    ensures CanBeFlushed(cfg, s, s.chan[0])
  {
    ReachStep(cfg, s, UnlockP(p), Do(cfg, s, UnlockP(p)));
    SpawningFlushes(cfg, Do(cfg, s, UnlockP(p)), p);
    NextStep(cfg, s, UnlockP(p), s.chan[0]);
  }

  lemma CountingFlushes(cfg: Config, s: State, p: nat)
    requires 1 <= cfg.batchSize && Reachable(cfg, s) && s.chan != [] && At(s, p, Counting) && s.ready > 0
    ensures CanBeFlushed(cfg, s, s.chan[0])
  {
    ReachStep(cfg, s, Count(p), Do(cfg, s, Count(p)));
    GrantedFlushes(cfg, Do(cfg, s, Count(p)), p);
    NextStep(cfg, s, Count(p), s.chan[0]);
  }

  lemma PermitLeftFlushes(cfg: Config, s: State, p: nat)
    requires 1 <= cfg.batchSize && Reachable(cfg, s) && s.chan != [] && At(s, p, Starting) && s.spin.Free? && s.ready > 0
    ensures CanBeFlushed(cfg, s, s.chan[0])
  {
    ReachStep(cfg, s, LockP(p), Do(cfg, s, LockP(p)));
    CountingFlushes(cfg, Do(cfg, s, LockP(p)), p);
    NextStep(cfg, s, LockP(p), s.chan[0]);
  }

  /** A worker that leaves makes room for the one that the producer will start. */
  lemma {:induction false} LeaverMakesRoom(cfg: Config, s: State, w: nat, p: nat)
    requires 1 <= cfg.batchSize && Reachable(cfg, s) && s.chan != [] && At(s, p, Starting) && s.spin.Free? && s.ready >= 0
    requires (WorkerAt(s, w, Deciding) || WorkerAt(s, w, Locking)) && s.workers[w].el == []
    ensures CanBeFlushed(cfg, s, s.chan[0])
    decreases if s.workers[w].pc.Deciding? then 1 else 0
  {
    if WorkerAt(s, w, Deciding) {
      ReachStep(cfg, s, Proceed(w), Do(cfg, s, Proceed(w)));
      LeaverMakesRoom(cfg, Do(cfg, s, Proceed(w)), w, p);
      NextStep(cfg, s, Proceed(w), s.chan[0]);
    } else {
      ReachStep(cfg, s, LockW(w), Do(cfg, s, LockW(w)));
      LockedLeaver(cfg, Do(cfg, s, LockW(w)), w, p);
      NextStep(cfg, s, LockW(w), s.chan[0]);
    }
  }

  lemma LockedLeaver(cfg: Config, s: State, w: nat, p: nat)
    requires 1 <= cfg.batchSize && Reachable(cfg, s) && s.chan != [] && At(s, p, Starting) && s.ready >= 0
    requires WorkerAt(s, w, Locked) && s.workers[w].el == []
    ensures CanBeFlushed(cfg, s, s.chan[0])
  {
    var t := Do(cfg, s, Give(w));
    ReachStep(cfg, s, Give(w), t);
    ReachStep(cfg, t, UnlockW(w), Do(cfg, t, UnlockW(w)));
    PermitLeftFlushes(cfg, Do(cfg, t, UnlockW(w)), p);
    NextStep(cfg, t, UnlockW(w), s.chan[0]);
    NextStep(cfg, s, Give(w), s.chan[0]);
  }

  lemma {:induction false} SomeWorkerHasPermit(ws: seq<Worker>) returns (w: nat)
    requires WorkerPermits(ws) > 0
    ensures w < |ws| && ws[w].Permits() == 1
  {
    if ws[|ws| - 1].Permits() == 1 {
      w := |ws| - 1;
    } else {
      w := SomeWorkerHasPermit(ws[..|ws| - 1]);
    }
  }

  lemma {:induction false} SomeProducerHasPermit(ps: seq<Producer>) returns (p: nat)
    requires ProducerPermits(ps) > 0
    ensures p < |ps| && ps[p].pc.Permits() == 1
  {
    if ps[|ps| - 1].pc.Permits() == 1 {
      p := |ps| - 1;
    } else {
      p := SomeProducerHasPermit(ps[..|ps| - 1]);
    }
  }

  /** With the lock free, a producer before it gets a worker started, or there is one already
      that will look: the permits are with somebody. */
  lemma FreeLockFlushes(cfg: Config, s: State, p: nat)
    requires 1 <= cfg.batchSize && 1 <= cfg.maxWorkers && Reachable(cfg, s) && s.chan != []
    requires At(s, p, Starting) && s.spin.Free?
    ensures CanBeFlushed(cfg, s, s.chan[0])
  {
    WorkersBounded(cfg, s);
    if s.ready > 0 {
      PermitLeftFlushes(cfg, s, p);
    } else if ProducerPermits(s.producers) > 0 {
      var q := SomeProducerHasPermit(s.producers);
      SpawningFlushes(cfg, s, q);
    } else {
      var w := SomeWorkerHasPermit(s.workers);
      if WorkerLooks(cfg, s.workers[w]) {
        WorkerFlushes(cfg, s, w);
      } else {
        FreeOfLock(cfg, s, w);
        LeaverMakesRoom(cfg, s, w, p);
      }
    }
  }

  lemma FreeOfLock(cfg: Config, s: State, w: nat)
    requires 1 <= cfg.batchSize && Reachable(cfg, s) && s.spin.Free? && w < |s.workers|
    ensures !s.workers[w].pc.Locked?
  {
    ReachableInv(cfg, s);
  }

  lemma StartingFlushes(cfg: Config, s: State, p: nat)
    requires 1 <= cfg.batchSize && 1 <= cfg.maxWorkers && Reachable(cfg, s) && s.chan != [] && At(s, p, Starting)
    ensures CanBeFlushed(cfg, s, s.chan[0])
  {
    ReachableInv(cfg, s);
    var r, schedule := LockComesFree(cfg, s, HolderDistance(s));
    FreeLockFlushes(cfg, r, p);
    Later(cfg, s, schedule, s.chan[0]);
  }

  lemma ProducerFlushes(cfg: Config, s: State, p: nat)
    requires 1 <= cfg.batchSize && 1 <= cfg.maxWorkers && Reachable(cfg, s) && s.chan != []
    requires p < |s.producers| && ProducerLooks(cfg, s, p)
    ensures CanBeFlushed(cfg, s, s.chan[0])
  {
    match s.producers[p].pc
    case Sending =>
      ReachStep(cfg, s, Send(p), Do(cfg, s, Send(p)));
      StartingFlushes(cfg, Do(cfg, s, Send(p)), p);
      NextStep(cfg, s, Send(p), s.chan[0]);
    case Starting => StartingFlushes(cfg, s, p);
    case Counting => CountingFlushes(cfg, s, p);
    case Granted => GrantedFlushes(cfg, s, p);
    case Spawning => SpawningFlushes(cfg, s, p);
  }

  /** The first entry in the channel can be flushed without another call of Enter exactly when
      there may be workers at all and somebody will still look into the channel. */
  lemma FlushableIffSomebodyLooks(cfg: Config, s: State)
    requires 1 <= cfg.batchSize && Reachable(cfg, s) && s.chan != []
    ensures CanBeFlushed(cfg, s, s.chan[0]) <==> cfg.maxWorkers >= 1 && SomebodyLooks(cfg, s)
  {
    if cfg.maxWorkers >= 1 && SomebodyLooks(cfg, s) {
      if w: nat :| w < |s.workers| && WorkerLooks(cfg, s.workers[w]) {
        WorkerFlushes(cfg, s, w);
      } else {
        var p: nat :| p < |s.producers| && ProducerLooks(cfg, s, p);
        ProducerFlushes(cfg, s, p);
      }
    } else {
      NeverFlushed(cfg, s);
    }
  }

  lemma NeverFlushed(cfg: Config, s: State)
    requires 1 <= cfg.batchSize && Reachable(cfg, s) && s.chan != []
    requires cfg.maxWorkers == 0 || !SomebodyLooks(cfg, s)
    ensures !CanBeFlushed(cfg, s, s.chan[0])
  {
    WaitingIsNotFlushed(cfg, s);
    forall schedule | NoCalls(schedule)
      ensures FlushedOcc(Run(cfg, s, schedule).flushed, s.chan[0]) == 0
    {
      if cfg.maxWorkers == 0 {
        NoPermitsNoFlush(cfg, s, schedule);
      } else {
        StrandedUntilNextEnter(cfg, s, schedule);
      }
    }
  }

  // ---------------------------------------------------------------------------------------
  // It happens
  // ---------------------------------------------------------------------------------------

  const ONE_WORKER: Config := Config(1, 10, false)

  /** The only worker has drained the channel and decided to look no further. */
  const ABOUT_TO_EXIT: State := State(0, Free, [], [Producer(false, Started)], [Worker(Locking, [])], [true], [0], [[0]], [0])

  lemma FirstWorkerIsDone()
    ensures Reachable(ONE_WORKER, ABOUT_TO_EXIT)
  {
    var s1 := Init(ONE_WORKER).(producers := [Producer(false, Sending)], token := [false]);
    var s2 := s1.(producers := [Producer(false, Starting)], chan := [0], sent := [0]);
    var s3 := s2.(producers := [Producer(false, Counting)], spin := ByProducer(0));
    assert Init(ONE_WORKER) == Run(ONE_WORKER, Init(ONE_WORKER), []);
    ReachStep(ONE_WORKER, Init(ONE_WORKER), Call(false), s1);
    ReachStep(ONE_WORKER, s1, Send(0), s2);
    ReachStep(ONE_WORKER, s2, LockP(0), s3);
    StartWorker(s3);
  }

  lemma StartWorker(s: State)
    requires Reachable(ONE_WORKER, s)
    requires s == State(1, ByProducer(0), [0], [Producer(false, Counting)], [], [false], [0], [], [])
    ensures Reachable(ONE_WORKER, ABOUT_TO_EXIT)
  {
    var s4 := s.(producers := [Producer(false, Granted)], ready := 0);
    var s5 := s4.(producers := [Producer(false, Spawning)], spin := Free);
    var s6 := s5.(producers := [Producer(false, Started)], workers := [Worker(Receiving, [])]);
    ReachStep(ONE_WORKER, s, Count(0), s4);
    ReachStep(ONE_WORKER, s4, UnlockP(0), s5);
    ReachStep(ONE_WORKER, s5, Spawn(0), s6);
    FirstRound(s6);
  }

  lemma FirstRound(s: State)
    requires Reachable(ONE_WORKER, s)
    requires s == State(0, Free, [0], [Producer(false, Started)], [Worker(Receiving, [])], [false], [0], [], [])
    ensures Reachable(ONE_WORKER, ABOUT_TO_EXIT)
  {
    var s1 := s.(chan := [], workers := [Worker(Receiving, [0])]);
    assert s.chan[1..] == [] && s.workers[0].el + [s.chan[0]] == [0];
    ReachStep(ONE_WORKER, s, Take(0), s1);
    DrainRound(s1);
  }

  lemma DrainRound(s: State)
    requires Reachable(ONE_WORKER, s)
    requires s == State(0, Free, [], [Producer(false, Started)], [Worker(Receiving, [0])], [false], [0], [], [])
    ensures Reachable(ONE_WORKER, ABOUT_TO_EXIT)
  {
    var s1 := s.(workers := [Worker(Deciding, [0])]);
    var s2 := s.(workers := [Worker(Locking, [0])]);
    ReachStep(ONE_WORKER, s, Drained(0), s1);
    ReachStep(ONE_WORKER, s1, Proceed(0), s2);
    FlushRound(s2);
  }

  lemma FlushRound(s: State)
    requires Reachable(ONE_WORKER, s)
    requires s == State(0, Free, [], [Producer(false, Started)], [Worker(Locking, [0])], [false], [0], [], [])
    ensures Reachable(ONE_WORKER, ABOUT_TO_EXIT)
  {
    var s1 := s.(workers := [Worker(Locked, [0])], spin := ByWorker(0));
    var s2 := s.(workers := [Worker(Flushing, [0])]);
    ReachStep(ONE_WORKER, s, LockW(0), s1);
    ReachStep(ONE_WORKER, s1, UnlockW(0), s2);
    FirstFlush(s2);
  }

  lemma FirstFlush(s: State)
    requires Reachable(ONE_WORKER, s)
    requires s == State(0, Free, [], [Producer(false, Started)], [Worker(Flushing, [0])], [false], [0], [], [])
    ensures Reachable(ONE_WORKER, ABOUT_TO_EXIT)
  {
    var s1 := s.(workers := [Worker(Signalling(0), [0])], flushed := [[0]]);
    assert s.flushed + [s.workers[0].el] == [[0]];
    ReachStep(ONE_WORKER, s, Flush(0), s1);
    SecondRound(s1);
  }

  lemma SecondRound(s: State)
    requires Reachable(ONE_WORKER, s)
    requires s == State(0, Free, [], [Producer(false, Started)], [Worker(Signalling(0), [0])], [false], [0], [[0]], [])
    ensures Reachable(ONE_WORKER, ABOUT_TO_EXIT)
  {
    var s1 := ABOUT_TO_EXIT.(workers := [Worker(Signalling(1), [0])]);
    var s2 := ABOUT_TO_EXIT.(workers := [Worker(Receiving, [])]);
    var s3 := ABOUT_TO_EXIT.(workers := [Worker(Deciding, [])]);
    ReachStep(ONE_WORKER, s, Signal(0), s1);
    ReachStep(ONE_WORKER, s1, Again(0), s2);
    ReachStep(ONE_WORKER, s2, Drained(0), s3);
    ReachStep(ONE_WORKER, s3, Proceed(0), ABOUT_TO_EXIT);
  }

  /** Entries can be stranded: the last worker has found the channel empty when an entry comes
      in, which is refused a worker because that one still has its permit. */
  lemma EntryCanBeStranded()
    ensures exists s :: Reachable(ONE_WORKER, s) && Stranded(ONE_WORKER, s)
  {
    var s0 := ABOUT_TO_EXIT;
    var started := Producer(false, Started);
    var s1 := s0.(producers := [started, Producer(false, Sending)], token := [true, false]);
    var s2 := s1.(producers := [started, Producer(false, Starting)], chan := [1], sent := [0, 1]);
    var s3 := s2.(producers := [started, Producer(false, Counting)], spin := ByProducer(1));
    FirstWorkerIsDone();
    ReachStep(ONE_WORKER, s0, Call(false), s1);
    ReachStep(ONE_WORKER, s1, Send(1), s2);
    ReachStep(ONE_WORKER, s2, LockP(1), s3);
    forall p: nat | p < |s3.producers| ensures !ProducerLooks(ONE_WORKER, s3, p) {}
    forall w: nat | w < |s3.workers| ensures !WorkerLooks(ONE_WORKER, s3.workers[w]) {}
    assert Stranded(ONE_WORKER, s3);
  }
}
