/** With a single worker permit the batcher keeps the channel's order (x/batch/batcher.go). */
module BatcherOrder {
  import opened Batcher
  import opened BatcherInvariant
  import opened BatcherLaws

  /** All entries of a list of batches, in order. */
  function Flat(batches: seq<seq<nat>>): (r: seq<nat>)
  {
    if batches == [] then [] else Flat(batches[..|batches| - 1]) + batches[|batches| - 1]
  }

  /** What the workers hold, in the order of the workers. */
  function AllHeld(ws: seq<Worker>): (r: seq<nat>)
  {
    if ws == [] then [] else AllHeld(ws[..|ws| - 1]) + ws[|ws| - 1].Held()
  }

  /** Flushed entries, then the entries held by the worker, then those in the channel are the
      entries in the order they were sent. */
  ghost predicate InOrder(s: State)
  {
    s.sent == Flat(s.flushed) + AllHeld(s.workers) + s.chan
  }

  /** All workers but `w` are gone. */
  ghost predicate Alone(ws: seq<Worker>, w: nat)
  {
    w < |ws| && forall v :: 0 <= v < |ws| && v != w ==> ws[v].Held() == []
  }

  lemma {:induction false} NothingHeld(ws: seq<Worker>)
    requires forall v :: 0 <= v < |ws| ==> ws[v].Held() == []
    ensures AllHeld(ws) == []
  {
    if ws != [] {
      NothingHeld(ws[..|ws| - 1]);
    }
  }

  lemma {:induction false} AloneHolds(ws: seq<Worker>, w: nat)
    requires Alone(ws, w)
    ensures AllHeld(ws) == ws[w].Held()
  {
    var n := |ws| - 1;
    if w == n {
      NothingHeld(ws[..n]);
      assert [] + ws[w].Held() == ws[w].Held();
    } else {
      AloneHolds(ws[..n], w);
      assert ws[n].Held() == [] && ws[w].Held() + [] == ws[w].Held();
    }
  }

  lemma {:induction false} TwoPermits(ws: seq<Worker>, v: nat, w: nat)
    requires v < |ws| && w < |ws| && v != w
    ensures ws[v].Permits() + ws[w].Permits() <= WorkerPermits(ws)
  {
    var n := |ws| - 1;
    if v == n {
      OnePermit(ws[..n], w);
    } else if w == n {
      OnePermit(ws[..n], v);
    } else {
      TwoPermits(ws[..n], v, w);
    }
  }

  lemma {:induction false} OnePermit(ws: seq<Worker>, w: nat)
    requires w < |ws|
    ensures ws[w].Permits() <= WorkerPermits(ws)
  {
    if w < |ws| - 1 {
      OnePermit(ws[..|ws| - 1], w);
    }
  }

  /** With one permit, a worker that still has it is alone. */
  lemma RunningAlone(cfg: Config, s: State, w: nat)
    requires Shapes(cfg, s) && Permits(cfg, s) && SpinOk(s) && cfg.maxWorkers == 1
    requires w < |s.workers| && s.workers[w].Permits() == 1
    ensures Alone(s.workers, w)
  {
    DeniedHasPermit(s);
    forall v | 0 <= v < |s.workers| && v != w ensures s.workers[v].Held() == [] {
      TwoPermits(s.workers, v, w);
      assert WorkerShape(cfg, s.workers[v]);
    }
  }

  lemma {:induction false} SameHeld(ws: seq<Worker>, w: nat, x: Worker)
    requires w < |ws| && x.Held() == ws[w].Held()
    ensures AllHeld(ws[w := x]) == AllHeld(ws)
  {
    var n, vs := |ws| - 1, ws[w := x];
    if w == n {
      assert vs[..n] == ws[..n];
    } else {
      SameHeld(ws[..n], w, x);
      assert vs[..n] == ws[..n][w := x];
    }
  }

  lemma TakeKeepsOrder(cfg: Config, s: State, w: nat)
    requires Shapes(cfg, s) && Permits(cfg, s) && SpinOk(s) && cfg.maxWorkers == 1
    requires InOrder(s) && Enabled(cfg, s, Take(w))
    ensures InOrder(Do(cfg, s, Take(w)))
  {
    var r := Do(cfg, s, Take(w));
    RunningAlone(cfg, s, w);
    AloneHolds(s.workers, w);
    assert Alone(r.workers, w);
    AloneHolds(r.workers, w);
    MoveHead(Flat(s.flushed), s.workers[w].el, s.chan);
  }

  lemma MoveHead(flushed: seq<nat>, held: seq<nat>, chan: seq<nat>)
    requires chan != []
    ensures flushed + held + chan == flushed + (held + [chan[0]]) + chan[1..]
  {
  }

  lemma FlushKeepsOrder(cfg: Config, s: State, w: nat)
    requires Shapes(cfg, s) && Permits(cfg, s) && SpinOk(s) && cfg.maxWorkers == 1
    requires InOrder(s) && Enabled(cfg, s, Flush(w))
    ensures InOrder(Do(cfg, s, Flush(w)))
  {
    var r := Do(cfg, s, Flush(w));
    RunningAlone(cfg, s, w);
    AloneHolds(s.workers, w);
    assert Alone(r.workers, w);
    AloneHolds(r.workers, w);
    FlatAdd(s.flushed, s.workers[w].el);
    MoveBatch(Flat(s.flushed), s.workers[w].el, s.chan);
  }

  lemma FlatAdd(batches: seq<seq<nat>>, b: seq<nat>)
    ensures Flat(batches + [b]) == Flat(batches) + b
  {
    assert (batches + [b])[..|batches|] == batches;
  }

  lemma MoveBatch(flushed: seq<nat>, held: seq<nat>, chan: seq<nat>)
    ensures flushed + held + chan == (flushed + held) + [] + chan
  {
  }

  lemma StepKeepsOrder(cfg: Config, s: State, a: Action)
    requires Shapes(cfg, s) && Permits(cfg, s) && SpinOk(s) && cfg.maxWorkers == 1
    requires InOrder(s) && Enabled(cfg, s, a)
    ensures InOrder(Do(cfg, s, a))
  {
    if a.Take? {
      TakeKeepsOrder(cfg, s, a.w);
    } else if a.Flush? {
      FlushKeepsOrder(cfg, s, a.w);
    } else {
      SameHeldStep(cfg, s, a);
    }
  }

  lemma SameHeldStep(cfg: Config, s: State, a: Action)
    requires Shapes(cfg, s) && Enabled(cfg, s, a) && !a.Take? && !a.Flush?
    ensures AllHeld(Do(cfg, s, a).workers) == AllHeld(s.workers)
  {
    var w := Mover(a);
    if w >= 0 {
      SameHeldMove(cfg, s, a);
      SameHeld(s.workers, w, Do(cfg, s, a).workers[w]);
    } else if a.Spawn? {
      assert (s.workers + [Worker(Receiving, [])])[..|s.workers|] == s.workers;
    }
  }

  lemma SameHeldMove(cfg: Config, s: State, a: Action)
    requires Enabled(cfg, s, a) && !a.Take? && !a.Flush? && Mover(a) >= 0
    ensures var w := Mover(a);
            && Do(cfg, s, a).workers == s.workers[w := Do(cfg, s, a).workers[w]]
            && Do(cfg, s, a).workers[w].Held() == s.workers[w].Held()
  {
  }

  /** With one worker permit the flushed batches, put together, are always a prefix of the
      order in which entries were sent, across worker exits and restarts. */
  lemma {:induction false} FlushesInSendOrder(cfg: Config, s: State, schedule: seq<Action>)
    requires 1 <= cfg.batchSize && cfg.maxWorkers == 1 && Inv(cfg, s) && InOrder(s)
    ensures InOrder(Run(cfg, s, schedule))
    ensures Flat(Run(cfg, s, schedule).flushed) <= Run(cfg, s, schedule).sent
    decreases |schedule|
  {
    if schedule != [] {
      if Enabled(cfg, s, schedule[0]) {
        StepKeepsInv(cfg, s, schedule[0]);
        StepKeepsOrder(cfg, s, schedule[0]);
        FlushesInSendOrder(cfg, Do(cfg, s, schedule[0]), schedule[1..]);
      } else {
        FlushesInSendOrder(cfg, s, schedule[1..]);
      }
    }
  }
}
