/** The batcher (x/batch/batcher.go, x/batch/entry.go) as a step machine.

    Producers send entries into a bounded channel and start workers under a spinlock; workers
    drain the channel, flush and signal. Every action is one atomic step of one goroutine, and
    any interleaving of them is a run. Entry `e` is the one entered by producer `e`. */
module Batcher {

  /** Where a call of Enter or EnterAndWait stands. */
  datatype ProducerPc =
    | Sending   // blocked on the channel, or about to send
    | Starting  // in startWorker, before the lock
    | Counting  // holds the lock
    | Granted   // took a permit; still holds the lock
    | Denied    // the counter went below zero; still holds the lock
    | Restored  // put the counter back; still holds the lock
    | Spawning  // has a permit, unlocked, worker not running yet
    | Started   // startWorker has returned
    | Returned  // the call has returned
  {
    predicate Locks()
    {
      Counting? || Granted? || Denied? || Restored?
    }

    /** The permits the producer has taken from the counter. */
    function Permits(): nat
    {
      if Granted? || Denied? || Spawning? then 1 else 0
    }
  }

  datatype Producer = Producer(waits: bool, pc: ProducerPc)

  /** Where a worker stands. */
  datatype WorkerPc =
    | Receiving          // in the inner loop
    | Deciding           // left the inner loop
    | Locking            // before the lock
    | Locked             // holds the lock
    | Leaving            // gave its permit back; still holds the lock
    | Flushing           // unlocked, about to flush
    | Signalling(i: nat) // flushed; entry `i` of the batch is to be signalled
    | Exited

  datatype Worker = Worker(pc: WorkerPc, el: seq<nat>)
  {
    /** Entries taken from the channel and not flushed yet. */
    function Held(): seq<nat>
    {
      if pc.Signalling? then [] else el
    }

    /** Entries flushed and not signalled yet. */
    function Unsignalled(): seq<nat>
    {
      if pc.Signalling? && pc.i <= |el| then el[pc.i..] else []
    }

    function Permits(): nat
    {
      if pc.Leaving? || pc.Exited? then 0 else 1
    }
  }

  datatype Holder = Free | ByProducer(p: nat) | ByWorker(w: nat)

  datatype Config = Config(maxWorkers: nat, batchSize: nat, minWait: bool)

  /** `sent` lists the entries in the order they entered the channel, `flushed` the batches in
      the order they were flushed, `signalled` the done() calls; `token` is the content of each
      entry's one-slot channel. */
  datatype State = State(
    ready: int,
    spin: Holder,
    chan: seq<nat>,
    producers: seq<Producer>,
    workers: seq<Worker>,
    token: seq<bool>,
    sent: seq<nat>,
    flushed: seq<seq<nat>>,
    signalled: seq<nat>)

  function Init(cfg: Config): State
  {
    State(cfg.maxWorkers, Free, [], [], [], [], [], [], [])
  }

  datatype Action =
    | Call(waits: bool)
    // a producer
    | Send(p: nat) | LockP(p: nat) | Count(p: nat) | Restore(p: nat) | UnlockP(p: nat) | Spawn(p: nat)
    | Return(p: nat)
    // a worker
    | Take(w: nat) | Drained(w: nat) | Nap(w: nat) | Proceed(w: nat) | LockW(w: nat) | Give(w: nat)
    | UnlockW(w: nat) | Flush(w: nat) | Signal(w: nat) | Again(w: nat)

  predicate At(s: State, p: nat, pc: ProducerPc)
  {
    p < |s.producers| && s.producers[p].pc == pc
  }

  predicate WorkerAt(s: State, w: nat, pc: WorkerPc)
  {
    w < |s.workers| && s.workers[w].pc == pc
  }

  predicate IsSignalling(s: State, w: nat)
  {
    w < |s.workers| && s.workers[w].pc.Signalling?
  }

  predicate Enabled(cfg: Config, s: State, a: Action)
  {
    match a
    case Call(_) => true
    case Send(p) => At(s, p, Sending) && |s.chan| < cfg.batchSize
    case LockP(p) => At(s, p, Starting) && s.spin.Free?
    case Count(p) => At(s, p, Counting)
    case Restore(p) => At(s, p, Denied)
    case UnlockP(p) => At(s, p, Granted) || At(s, p, Restored)
    case Spawn(p) => At(s, p, Spawning)
    case Return(p) => At(s, p, Started) && p < |s.token| && (s.producers[p].waits ==> s.token[p])
    case Take(w) => WorkerAt(s, w, Receiving) && s.chan != []
    case Drained(w) => WorkerAt(s, w, Receiving) && s.chan == []
    case Nap(w) => WorkerAt(s, w, Deciding) && cfg.minWait && |s.workers[w].el| < cfg.batchSize
    case Proceed(w) => WorkerAt(s, w, Deciding)
    case LockW(w) => WorkerAt(s, w, Locking) && s.spin.Free?
    case Give(w) => WorkerAt(s, w, Locked) && s.workers[w].el == []
    case UnlockW(w) => WorkerAt(s, w, Leaving) || (WorkerAt(s, w, Locked) && s.workers[w].el != [])
    case Flush(w) => WorkerAt(s, w, Flushing)
    case Signal(w) => IsSignalling(s, w) && s.workers[w].pc.i < |s.workers[w].el|
                      && s.workers[w].el[s.workers[w].pc.i] < |s.token| && !s.token[s.workers[w].el[s.workers[w].pc.i]]
    case Again(w) => IsSignalling(s, w) && s.workers[w].pc.i == |s.workers[w].el|
  }

  function SetP(s: State, p: nat, pc: ProducerPc): State
    requires p < |s.producers|
  {
    s.(producers := s.producers[p := s.producers[p].(pc := pc)])
  }

  function SetW(s: State, w: nat, worker: Worker): State
    requires w < |s.workers|
  {
    s.(workers := s.workers[w := worker])
  }

  function Do(cfg: Config, s: State, a: Action): State
    requires Enabled(cfg, s, a)
  {
    match a
    case Call(waits) =>
      s.(producers := s.producers + [Producer(waits, Sending)], token := s.token + [false])

    case Send(p) =>
      SetP(s.(chan := s.chan + [p], sent := s.sent + [p]), p, Starting)

    case LockP(p) =>
      SetP(s.(spin := ByProducer(p)), p, Counting)

    case Count(p) =>
      SetP(s.(ready := s.ready - 1), p, if s.ready - 1 < 0 then Denied else Granted)

    case Restore(p) =>
      SetP(s.(ready := s.ready + 1), p, Restored)

    case UnlockP(p) =>
      SetP(s.(spin := Free), p, if s.producers[p].pc.Granted? then Spawning else Started)

    case Spawn(p) =>
      SetP(s.(workers := s.workers + [Worker(Receiving, [])]), p, Started)

    case Return(p) =>
      SetP(s.(token := if s.producers[p].waits then s.token[p := false] else s.token), p, Returned)

    case Take(w) =>
      var el := s.workers[w].el + [s.chan[0]];
      SetW(s.(chan := s.chan[1..]), w, Worker(if |el| < cfg.batchSize then Receiving else Deciding, el))

    case Drained(w) =>
      SetW(s, w, s.workers[w].(pc := Deciding))

    case Nap(w) =>
      SetW(s, w, s.workers[w].(pc := Receiving))

    case Proceed(w) =>
      SetW(s, w, s.workers[w].(pc := Locking))

    case LockW(w) =>
      SetW(s.(spin := ByWorker(w)), w, s.workers[w].(pc := Locked))

    case Give(w) =>
      SetW(s.(ready := s.ready + 1), w, s.workers[w].(pc := Leaving))

    case UnlockW(w) =>
      SetW(s.(spin := Free), w, s.workers[w].(pc := if s.workers[w].pc.Leaving? then Exited else Flushing))

    case Flush(w) =>
      SetW(s.(flushed := s.flushed + [s.workers[w].el]), w, s.workers[w].(pc := Signalling(0)))

    case Signal(w) =>
      var i := s.workers[w].pc.i;
      var e := s.workers[w].el[i];
      SetW(s.(token := s.token[e := true], signalled := s.signalled + [e]), w, s.workers[w].(pc := Signalling(i + 1)))

    case Again(w) =>
      SetW(s, w, Worker(Receiving, []))
  }

  /** A run: the actions of a schedule in order, those not possible at their turn skipped. */
  function Run(cfg: Config, s: State, schedule: seq<Action>): (r: State)
    decreases |schedule|
  {
    if schedule == [] then s
    else Run(cfg, if Enabled(cfg, s, schedule[0]) then Do(cfg, s, schedule[0]) else s, schedule[1..])
  }

  /** How often `e` occurs. */
  function Occ(xs: seq<nat>, e: nat): (n: nat)
  {
    if xs == [] then 0 else Occ(xs[..|xs| - 1], e) + (if xs[|xs| - 1] == e then 1 else 0)
  }

  /** How often `e` occurs in the batches. */
  function FlushedOcc(batches: seq<seq<nat>>, e: nat): (n: nat)
  {
    if batches == [] then 0 else FlushedOcc(batches[..|batches| - 1], e) + Occ(batches[|batches| - 1], e)
  }

  /** How often `e` is held by the workers. */
  function HeldOcc(ws: seq<Worker>, e: nat): (n: nat)
  {
    if ws == [] then 0 else HeldOcc(ws[..|ws| - 1], e) + Occ(ws[|ws| - 1].Held(), e)
  }

  /** How often `e` is still to be signalled by the workers. */
  function UnsignalledOcc(ws: seq<Worker>, e: nat): (n: nat)
  {
    if ws == [] then 0 else UnsignalledOcc(ws[..|ws| - 1], e) + Occ(ws[|ws| - 1].Unsignalled(), e)
  }

  function WorkerPermits(ws: seq<Worker>): (n: nat)
  {
    if ws == [] then 0 else WorkerPermits(ws[..|ws| - 1]) + ws[|ws| - 1].Permits()
  }

  function ProducerPermits(ps: seq<Producer>): (n: nat)
  {
    if ps == [] then 0 else ProducerPermits(ps[..|ps| - 1]) + ps[|ps| - 1].pc.Permits()
  }
}
