/** The invariant of the batcher machine, kept by every step (x/batch/batcher.go). */
module BatcherInvariant {
  import opened Batcher

  // ---------------------------------------------------------------------------------------
  // The invariant
  // ---------------------------------------------------------------------------------------

  /** Entries are neither made nor lost: what has been sent is in the channel, in a worker's
      batch, or flushed, with multiplicity. */
  ghost predicate Conserved(s: State)
  {
    forall e: nat :: Occ(s.sent, e) == Occ(s.chan, e) + HeldOcc(s.workers, e) + FlushedOcc(s.flushed, e)
  }

  /** Each producer sends its own entry, once. */
  ghost predicate SentOnce(s: State)
  {
    && (forall i, j :: 0 <= i < j < |s.sent| ==> s.sent[i] != s.sent[j])
    && (forall p :: p in s.sent <==> 0 <= p < |s.producers| && s.producers[p].pc != Sending)
  }

  /** What has been flushed has been signalled, or is about to be. */
  ghost predicate Signals(s: State)
  {
    forall e: nat :: FlushedOcc(s.flushed, e) == Occ(s.signalled, e) + UnsignalledOcc(s.workers, e)
  }

  /** A signal is in its entry's channel until the waiting call consumes it, and only then does
      that call return. */
  ghost predicate Tokens(s: State)
  {
    && |s.token| == |s.producers|
    && forall p :: 0 <= p < |s.producers| ==>
         if p in s.signalled then s.token[p] != WaitOver(s, p) else !s.token[p] && !WaitOver(s, p)
  }

  /** The producer's call of EnterAndWait has returned. */
  predicate WaitOver(s: State, p: nat)
    requires p < |s.producers|
  {
    s.producers[p].waits && s.producers[p].pc == Returned
  }

  ghost predicate Shapes(cfg: Config, s: State)
  {
    && |s.chan| <= cfg.batchSize
    && (forall w :: 0 <= w < |s.workers| ==> WorkerShape(cfg, s.workers[w]))
    && (forall b :: b in s.flushed ==> 1 <= |b| <= cfg.batchSize)
  }

  predicate WorkerShape(cfg: Config, w: Worker)
  {
    && |w.el| <= cfg.batchSize
    && (w.pc.Receiving? ==> |w.el| < cfg.batchSize)
    && (w.pc.Leaving? || w.pc.Exited? ==> w.el == [])
    && (w.pc.Flushing? || w.pc.Signalling? ==> w.el != [])
    && (w.pc.Signalling? ==> w.pc.i <= |w.el|)
  }

  /** The counter and the permits taken from it add up. */
  ghost predicate Permits(cfg: Config, s: State)
  {
    s.ready + ProducerPermits(s.producers) + WorkerPermits(s.workers) == cfg.maxWorkers
  }

  /** The spinlock is held by exactly the goroutine that is past taking it, and the counter is
      below zero only while a producer is putting it back. */
  ghost predicate SpinOk(s: State)
  {
    && (forall p :: 0 <= p < |s.producers| ==> (s.producers[p].pc.Locks() <==> s.spin == ByProducer(p)))
    && (forall w :: 0 <= w < |s.workers| ==> (s.workers[w].pc.Locked? || s.workers[w].pc.Leaving? <==> s.spin == ByWorker(w)))
    && (s.spin.ByProducer? ==> s.spin.p < |s.producers|)
    && (s.spin.ByWorker? ==> s.spin.w < |s.workers|)
    && (if s.spin.ByProducer? && s.producers[s.spin.p].pc.Denied? then s.ready == -1 else s.ready >= 0)
  }

  ghost predicate Inv(cfg: Config, s: State)
  {
    Conserved(s) && SentOnce(s) && Signals(s) && Tokens(s) && Shapes(cfg, s) && Permits(cfg, s) && SpinOk(s)
  }

  // ---------------------------------------------------------------------------------------
  // Sums over the goroutines
  // ---------------------------------------------------------------------------------------

  lemma {:induction false} OccConcat(a: seq<nat>, b: seq<nat>, e: nat)
    ensures Occ(a + b, e) == Occ(a, e) + Occ(b, e)
  {
    if b == [] {
      assert a + b == a;
    } else {
      var n := |b| - 1;
      assert (a + b)[..|a| + n] == a + b[..n];
      OccConcat(a, b[..n], e);
    }
  }

  lemma {:induction false} HeldSet(ws: seq<Worker>, w: nat, x: Worker, e: nat)
    requires w < |ws|
    ensures HeldOcc(ws[w := x], e) + Occ(ws[w].Held(), e) == HeldOcc(ws, e) + Occ(x.Held(), e)
  {
    var n := |ws| - 1;
    if w == n {
      assert ws[w := x][..n] == ws[..n];
    } else {
      HeldSet(ws[..n], w, x, e);
      assert ws[w := x][..n] == ws[..n][w := x];
    }
  }

  function Sum(xs: seq<nat>): nat {
    if xs == [] then 0 else Sum(xs[..|xs| - 1]) + xs[|xs| - 1]
  }

  lemma {:induction false} SumSet(xs: seq<nat>, w: nat, y: nat)
    requires w < |xs|
    ensures Sum(xs[w := y]) + xs[w] == Sum(xs) + y
  {
    var n := |xs| - 1;
    if w == n {
      assert xs[w := y][..n] == xs[..n];
    } else {
      SumSet(xs[..n], w, y);
      assert xs[w := y][..n] == xs[..n][w := y];
    }
  }

  /** How often `e` is still to be signalled by each worker. */
  function Dues(ws: seq<Worker>, e: nat): seq<nat> {
    seq(|ws|, i requires 0 <= i < |ws| => Occ(ws[i].Unsignalled(), e))
  }

  lemma {:induction false} UnsignalledIsSum(ws: seq<Worker>, e: nat)
    ensures UnsignalledOcc(ws, e) == Sum(Dues(ws, e))
  {
    if ws != [] {
      UnsignalledIsSum(ws[..|ws| - 1], e);
      assert Dues(ws, e)[..|ws| - 1] == Dues(ws[..|ws| - 1], e);
    }
  }

  lemma UnsignalledSet(ws: seq<Worker>, w: nat, x: Worker, e: nat)
    requires w < |ws|
    ensures UnsignalledOcc(ws[w := x], e) + Occ(ws[w].Unsignalled(), e) == UnsignalledOcc(ws, e) + Occ(x.Unsignalled(), e)
  {
    UnsignalledIsSum(ws, e);
    UnsignalledIsSum(ws[w := x], e);
    var due := Occ(x.Unsignalled(), e);
    assert Dues(ws[w := x], e) == Dues(ws, e)[w := due];
    SumSet(Dues(ws, e), w, due);
  }

  lemma {:induction false} WorkerPermitsSet(ws: seq<Worker>, w: nat, x: Worker)
    requires w < |ws|
    ensures WorkerPermits(ws[w := x]) + ws[w].Permits() == WorkerPermits(ws) + x.Permits()
  {
    var n := |ws| - 1;
    if w == n {
      assert ws[w := x][..n] == ws[..n];
    } else {
      WorkerPermitsSet(ws[..n], w, x);
      assert ws[w := x][..n] == ws[..n][w := x];
    }
  }

  lemma {:induction false} ProducerPermitsSet(ps: seq<Producer>, p: nat, x: Producer)
    requires p < |ps|
    ensures ProducerPermits(ps[p := x]) + ps[p].pc.Permits() == ProducerPermits(ps) + x.pc.Permits()
  {
    var n := |ps| - 1;
    if p == n {
      assert ps[p := x][..n] == ps[..n];
    } else {
      ProducerPermitsSet(ps[..n], p, x);
      assert ps[p := x][..n] == ps[..n][p := x];
    }
  }

  lemma AddWorker(ws: seq<Worker>, x: Worker, e: nat)
    ensures HeldOcc(ws + [x], e) == HeldOcc(ws, e) + Occ(x.Held(), e)
    ensures UnsignalledOcc(ws + [x], e) == UnsignalledOcc(ws, e) + Occ(x.Unsignalled(), e)
    ensures WorkerPermits(ws + [x]) == WorkerPermits(ws) + x.Permits()
  {
    assert (ws + [x])[..|ws|] == ws;
  }

  lemma AddProducer(ps: seq<Producer>, x: Producer)
    ensures ProducerPermits(ps + [x]) == ProducerPermits(ps) + x.pc.Permits()
  {
    assert (ps + [x])[..|ps|] == ps;
  }

  lemma AddBatch(bs: seq<seq<nat>>, b: seq<nat>, e: nat)
    ensures FlushedOcc(bs + [b], e) == FlushedOcc(bs, e) + Occ(b, e)
  {
    assert (bs + [b])[..|bs|] == bs;
  }

  // ---------------------------------------------------------------------------------------
  // Each step keeps it
  // ---------------------------------------------------------------------------------------

  /** The worker that takes the step, or -1. */
  function Mover(a: Action): (w: int)
  {
    match a
    case Take(w) => w
    case Drained(w) => w
    case Nap(w) => w
    case Proceed(w) => w
    case LockW(w) => w
    case Give(w) => w
    case UnlockW(w) => w
    case Flush(w) => w
    case Signal(w) => w
    case Again(w) => w
    case _ => -1
  }

  lemma ConservedKept(cfg: Config, s: State, a: Action, e: nat)
    requires Conserved(s) && Enabled(cfg, s, a)
    ensures var r := Do(cfg, s, a);
            Occ(r.sent, e) == Occ(r.chan, e) + HeldOcc(r.workers, e) + FlushedOcc(r.flushed, e)
  {
    if Mover(a) >= 0 {
      MoveConserves(cfg, s, a, e);
    } else if a.Send? {
      OccConcat(s.chan, [a.p], e);
      OccConcat(s.sent, [a.p], e);
    } else if a.Spawn? {
      AddWorker(s.workers, Worker(Receiving, []), e);
    }
  }

  lemma MoveConserves(cfg: Config, s: State, a: Action, e: nat)
    requires Enabled(cfg, s, a) && Mover(a) >= 0
    ensures var r := Do(cfg, s, a);
            && r.sent == s.sent
            && Occ(r.chan, e) + HeldOcc(r.workers, e) + FlushedOcc(r.flushed, e)
            == Occ(s.chan, e) + HeldOcc(s.workers, e) + FlushedOcc(s.flushed, e)
  {
    HeldSet(s.workers, Mover(a), Do(cfg, s, a).workers[Mover(a)], e);
    if a.Take? {
      TakeConserves(s.chan, s.workers[a.w].el, e);
    } else if a.Flush? {
      AddBatch(s.flushed, s.workers[a.w].el, e);
    }
  }

  lemma TakeConserves(chan: seq<nat>, el: seq<nat>, e: nat)
    requires chan != []
    ensures Occ(chan[1..], e) + Occ(el + [chan[0]], e) == Occ(chan, e) + Occ(el, e)
  {
    OccConcat([chan[0]], chan[1..], e);
    OccConcat(el, [chan[0]], e);
    assert [chan[0]] + chan[1..] == chan;
  }

  lemma SignalsKept(cfg: Config, s: State, a: Action, e: nat)
    requires Signals(s) && Shapes(cfg, s) && Enabled(cfg, s, a)
    ensures var r := Do(cfg, s, a);
            FlushedOcc(r.flushed, e) == Occ(r.signalled, e) + UnsignalledOcc(r.workers, e)
  {
    if Mover(a) >= 0 {
      MoveSignals(cfg, s, a, e);
    } else if a.Spawn? {
      AddWorker(s.workers, Worker(Receiving, []), e);
    }
  }

  lemma MoveSignals(cfg: Config, s: State, a: Action, e: nat)
    requires Shapes(cfg, s) && Enabled(cfg, s, a) && Mover(a) >= 0
    ensures var r := Do(cfg, s, a);
            FlushedOcc(r.flushed, e) - Occ(r.signalled, e) - UnsignalledOcc(r.workers, e)
            == FlushedOcc(s.flushed, e) - Occ(s.signalled, e) - UnsignalledOcc(s.workers, e)
  {
    var w := Mover(a);
    UnsignalledSet(s.workers, w, Do(cfg, s, a).workers[w], e);
    UnsignalledMove(cfg, s, a, e);
  }

  lemma UnsignalledMove(cfg: Config, s: State, a: Action, e: nat)
    requires Shapes(cfg, s) && Enabled(cfg, s, a) && Mover(a) >= 0
    ensures var r, w := Do(cfg, s, a), Mover(a);
            FlushedOcc(r.flushed, e) - Occ(r.signalled, e) - Occ(r.workers[w].Unsignalled(), e)
            == FlushedOcc(s.flushed, e) - Occ(s.signalled, e) - Occ(s.workers[w].Unsignalled(), e)
  {
    var r, w := Do(cfg, s, a), Mover(a);
    WorkerMove(cfg, s, a);
    if a.Flush? {
      AddBatch(s.flushed, s.workers[w].el, e);
    } else if a.Signal? {
      SignalConserves(s.signalled, s.workers[w].el, s.workers[w].pc.i, e);
    }
  }

  /** What a worker's step does to what has been flushed and signalled. */
  lemma WorkerMove(cfg: Config, s: State, a: Action)
    requires Shapes(cfg, s) && Enabled(cfg, s, a) && Mover(a) >= 0
    ensures var r, w := Do(cfg, s, a), Mover(a);
            var before, after, el := s.workers[w].Unsignalled(), r.workers[w].Unsignalled(), s.workers[w].el;
            if a.Flush? then r.flushed == s.flushed + [el] && r.signalled == s.signalled && before == [] && after == el
            else if a.Signal? then
              var i := s.workers[w].pc.i;
              && i < |el| && r.flushed == s.flushed && r.signalled == s.signalled + [el[i]]
              && before == el[i..] && after == el[i + 1..]
            else r.flushed == s.flushed && r.signalled == s.signalled && before == after
  {
    assert s.workers[Mover(a)].el[0..] == s.workers[Mover(a)].el;
  }

  lemma SignalConserves(signalled: seq<nat>, el: seq<nat>, i: nat, e: nat)
    requires i < |el|
    ensures Occ(signalled + [el[i]], e) + Occ(el[i + 1..], e) == Occ(signalled, e) + Occ(el[i..], e)
  {
    assert el[i..] == [el[i]] + el[i + 1..];
    OccConcat([el[i]], el[i + 1..], e);
    OccConcat(signalled, [el[i]], e);
  }

  lemma PermitsKept(cfg: Config, s: State, a: Action)
    requires Permits(cfg, s) && Enabled(cfg, s, a)
    ensures Permits(cfg, Do(cfg, s, a))
  {
    var r := Do(cfg, s, a);
    if Mover(a) >= 0 {
      WorkerPermitsSet(s.workers, Mover(a), r.workers[Mover(a)]);
    } else if a.Call? {
      AddProducer(s.producers, Producer(a.waits, Sending));
    } else {
      ProducerStep(cfg, s, a);
    }
  }

  lemma ProducerStep(cfg: Config, s: State, a: Action)
    requires Permits(cfg, s) && Enabled(cfg, s, a) && Mover(a) < 0 && !a.Call?
    ensures Permits(cfg, Do(cfg, s, a))
  {
    ProducerMove(cfg, s, a);
    PermitsMoved(cfg, s, Do(cfg, s, a), a.p, Do(cfg, s, a).producers[a.p], a.Spawn?);
  }

  lemma PermitsMoved(cfg: Config, s: State, r: State, p: nat, x: Producer, spawn: bool)
    requires Permits(cfg, s) && p < |s.producers| && r.producers == s.producers[p := x]
    requires r.workers == if spawn then s.workers + [Worker(Receiving, [])] else s.workers
    requires r.ready + x.pc.Permits() + (if spawn then 1 else 0) == s.ready + s.producers[p].pc.Permits()
    ensures Permits(cfg, r)
  {
    ProducerPermitsSet(s.producers, p, x);
    AddWorkerPermits(s.workers, Worker(Receiving, []));
  }

  lemma AddWorkerPermits(ws: seq<Worker>, x: Worker)
    ensures WorkerPermits(ws + [x]) == WorkerPermits(ws) + x.Permits()
  {
    assert (ws + [x])[..|ws|] == ws;
  }

  /** What a producer's step does to the permits. */
  lemma ProducerMove(cfg: Config, s: State, a: Action)
    requires Enabled(cfg, s, a) && Mover(a) < 0 && !a.Call?
    ensures var r := Do(cfg, s, a);
            && a.p < |s.producers| == |r.producers|
            && r.producers == s.producers[a.p := r.producers[a.p]]
            && r.workers == (if a.Spawn? then s.workers + [Worker(Receiving, [])] else s.workers)
            && r.ready + r.producers[a.p].pc.Permits() + (if a.Spawn? then 1 else 0) == s.ready + s.producers[a.p].pc.Permits()
  {
  }

  lemma SentOnceKept(cfg: Config, s: State, a: Action)
    requires SentOnce(s) && Enabled(cfg, s, a)
    ensures SentOnce(Do(cfg, s, a))
  {
    if a.Send? {
      assert a.p !in s.sent;
    }
  }

  lemma ShapesKept(cfg: Config, s: State, a: Action)
    requires Shapes(cfg, s) && Enabled(cfg, s, a) && 1 <= cfg.batchSize
    ensures Shapes(cfg, Do(cfg, s, a))
  {
    if Mover(a) >= 0 {
      MovedShape(cfg, s, a);
      assert WorkerShape(cfg, s.workers[Mover(a)]);
    }
  }

  lemma MovedShape(cfg: Config, s: State, a: Action)
    requires Enabled(cfg, s, a) && Mover(a) >= 0 && 1 <= cfg.batchSize
    requires WorkerShape(cfg, s.workers[Mover(a)])
    ensures WorkerShape(cfg, Do(cfg, s, a).workers[Mover(a)])
  {
  }

  lemma SpinKept(cfg: Config, s: State, a: Action)
    requires SpinOk(s) && Enabled(cfg, s, a)
    ensures SpinOk(Do(cfg, s, a))
  {
    if Mover(a) < 0 {
      ProducerSpin(cfg, s, a);
    } else if a.LockW? || a.Give? || a.UnlockW? {
      WorkerSpin(cfg, s, a);
    } else {
      WorkerOffTheLock(cfg, s, a);
    }
  }

  lemma ProducerSpin(cfg: Config, s: State, a: Action)
    requires SpinOk(s) && Enabled(cfg, s, a) && Mover(a) < 0
    ensures SpinOk(Do(cfg, s, a))
  {
    if a.LockP? {
      TakeSpin(cfg, s, a.p);
    } else if a.Count? || a.Restore? {
      CountSpin(cfg, s, a);
    } else if a.UnlockP? {
      GiveSpin(cfg, s, a.p);
    } else {
      ProducerOffTheLock(cfg, s, a);
    }
  }

  lemma TakeSpin(cfg: Config, s: State, p: nat)
    requires SpinOk(s) && Enabled(cfg, s, LockP(p))
    ensures SpinOk(Do(cfg, s, LockP(p)))
  {
  }

  lemma CountSpin(cfg: Config, s: State, a: Action)
    requires SpinOk(s) && Enabled(cfg, s, a) && (a.Count? || a.Restore?)
    ensures SpinOk(Do(cfg, s, a))
  {
  }

  lemma GiveSpin(cfg: Config, s: State, p: nat)
    requires SpinOk(s) && Enabled(cfg, s, UnlockP(p))
    ensures SpinOk(Do(cfg, s, UnlockP(p)))
  {
  }

  lemma ProducerOffTheLock(cfg: Config, s: State, a: Action)
    requires SpinOk(s) && Enabled(cfg, s, a) && (a.Call? || a.Send? || a.Spawn? || a.Return?)
    ensures SpinOk(Do(cfg, s, a))
  {
  }

  lemma WorkerSpin(cfg: Config, s: State, a: Action)
    requires SpinOk(s) && Enabled(cfg, s, a) && (a.LockW? || a.Give? || a.UnlockW?)
    ensures SpinOk(Do(cfg, s, a))
  {
  }

  lemma WorkerOffTheLock(cfg: Config, s: State, a: Action)
    requires SpinOk(s) && Enabled(cfg, s, a) && Mover(a) >= 0 && !a.LockW? && !a.Give? && !a.UnlockW?
    ensures SpinOk(Do(cfg, s, a))
  {
    var r, w := Do(cfg, s, a), Mover(a);
    assert r.spin == s.spin && r.ready == s.ready && r.producers == s.producers;
    assert forall v :: 0 <= v < |s.workers| && v != w ==> r.workers[v] == s.workers[v];
  }

  lemma {:induction false} OccIn(xs: seq<nat>, e: nat)
    ensures Occ(xs, e) == 0 <==> e !in xs
    ensures (forall i, j :: 0 <= i < j < |xs| ==> xs[i] != xs[j]) ==> Occ(xs, e) <= 1
  {
    if xs != [] {
      OccIn(xs[..|xs| - 1], e);
    }
  }

  lemma {:induction false} UnsignalledAtLeast(ws: seq<Worker>, w: nat, e: nat)
    requires w < |ws|
    ensures Occ(ws[w].Unsignalled(), e) <= UnsignalledOcc(ws, e)
  {
    if w < |ws| - 1 {
      UnsignalledAtLeast(ws[..|ws| - 1], w, e);
    }
  }

  /** The entry a worker is about to signal has not been signalled before. */
  lemma SignalledFirst(s: State, w: nat)
    requires Conserved(s) && SentOnce(s) && Signals(s)
    requires IsSignalling(s, w) && s.workers[w].pc.i < |s.workers[w].el|
    ensures var e := s.workers[w].el[s.workers[w].pc.i];
            e !in s.signalled && e < |s.producers|
  {
    var el, i := s.workers[w].el, s.workers[w].pc.i;
    UnsignalledAtLeast(s.workers, w, el[i]);
    OccIn(s.workers[w].Unsignalled(), el[i]);
    assert s.workers[w].Unsignalled()[0] == el[i];
    OccIn(s.sent, el[i]);
    OccIn(s.signalled, el[i]);
  }

  lemma TokensKept(cfg: Config, s: State, a: Action)
    requires Inv(cfg, s) && Enabled(cfg, s, a)
    ensures Tokens(Do(cfg, s, a))
  {
    if a.Signal? {
      SignalledFirst(s, a.w);
      SignalTokens(cfg, s, a.w);
    } else if a.Call? {
      NotYetSignalled(s, |s.producers|);
    } else {
      QuietTokens(cfg, s, a);
    }
  }

  lemma SignalTokens(cfg: Config, s: State, w: nat)
    requires Tokens(s) && Enabled(cfg, s, Signal(w)) && s.workers[w].el[s.workers[w].pc.i] !in s.signalled
    ensures Tokens(Do(cfg, s, Signal(w)))
  {
    var r, e := Do(cfg, s, Signal(w)), s.workers[w].el[s.workers[w].pc.i];
    forall p: nat | p != e ensures p in r.signalled <==> p in s.signalled {}
  }

  lemma QuietTokens(cfg: Config, s: State, a: Action)
    requires Tokens(s) && Enabled(cfg, s, a) && !a.Signal? && !a.Call?
    ensures Tokens(Do(cfg, s, a))
  {
  }

  lemma NotYetSignalled(s: State, p: nat)
    requires Conserved(s) && SentOnce(s) && Signals(s) && p !in s.sent
    ensures p !in s.signalled
  {
    OccIn(s.sent, p);
    OccIn(s.signalled, p);
  }

  lemma StepKeepsInv(cfg: Config, s: State, a: Action)
    requires 1 <= cfg.batchSize && Inv(cfg, s) && Enabled(cfg, s, a)
    ensures Inv(cfg, Do(cfg, s, a))
  {
    forall e: nat { ConservedKept(cfg, s, a, e); }
    forall e: nat { SignalsKept(cfg, s, a, e); }
    SentOnceKept(cfg, s, a);
    TokensKept(cfg, s, a);
    ShapesKept(cfg, s, a);
    PermitsKept(cfg, s, a);
    SpinKept(cfg, s, a);
  }

  /** Every run keeps the invariant, whatever the interleaving. */
  lemma {:induction false} RunKeepsInv(cfg: Config, s: State, schedule: seq<Action>)
    requires 1 <= cfg.batchSize && Inv(cfg, s)
    ensures Inv(cfg, Run(cfg, s, schedule))
    decreases |schedule|
  {
    if schedule != [] {
      if Enabled(cfg, s, schedule[0]) {
        StepKeepsInv(cfg, s, schedule[0]);
        RunKeepsInv(cfg, Do(cfg, s, schedule[0]), schedule[1..]);
      } else {
        RunKeepsInv(cfg, s, schedule[1..]);
      }
    }
  }
}
