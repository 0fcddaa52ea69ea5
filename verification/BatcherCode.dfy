/** The batcher's code (x/batch/batcher.go, x/batch/entry.go), goroutine by goroutine, against the
    step machine: each method performs, in the order of its statements, steps of one goroutine,
    with steps of all the others in between. What is proved of the machine's runs holds of it. */
module BatcherCode {
  import opened Wrappers
  import opened Batcher
  import opened BatcherLaws

  // ---------------------------------------------------------------------------------------
  // Whose steps a run is made of
  // ---------------------------------------------------------------------------------------

  /** Whose turn it is: a step of another goroutine, or the next one of the goroutine at hand. */
  datatype Turn = Other(a: Action) | Mine

  datatype Thread = ProducerThread(p: nat) | WorkerThread(w: nat)

  /** The goroutine whose step an action is. */
  function Doer(a: Action): Option<Thread> {
    match a
    case Call(_) => None
    case Send(p) => Some(ProducerThread(p))
    case LockP(p) => Some(ProducerThread(p))
    case Count(p) => Some(ProducerThread(p))
    case Restore(p) => Some(ProducerThread(p))
    case UnlockP(p) => Some(ProducerThread(p))
    case Spawn(p) => Some(ProducerThread(p))
    case Return(p) => Some(ProducerThread(p))
    case Take(w) => Some(WorkerThread(w))
    case Drained(w) => Some(WorkerThread(w))
    case Nap(w) => Some(WorkerThread(w))
    case Proceed(w) => Some(WorkerThread(w))
    case LockW(w) => Some(WorkerThread(w))
    case Give(w) => Some(WorkerThread(w))
    case UnlockW(w) => Some(WorkerThread(w))
    case Flush(w) => Some(WorkerThread(w))
    case Signal(w) => Some(WorkerThread(w))
    case Again(w) => Some(WorkerThread(w))
  }

  /** What happens at a turn: a step, or a goroutine that cannot move loses it. */
  datatype Event = Step(a: Action) | Blocked(me: Thread)

  /** The goroutine is at a statement that blocks: the channel is full, or the lock taken, or its
      signal has not come. */
  predicate IsBlocked(cfg: Config, s: State, me: Thread) {
    match me
    case ProducerThread(p) =>
      && p < |s.producers|
      && (match s.producers[p].pc
          case Sending => |s.chan| >= cfg.batchSize
          case Starting => !s.spin.Free?
          case Started => s.producers[p].waits && (p >= |s.token| || !s.token[p])
          case _ => false)
    case WorkerThread(w) => WorkerAt(s, w, Locking) && !s.spin.Free?
  }

  predicate Happens(cfg: Config, s: State, e: Event, r: State) {
    match e
    case Step(a) => Enabled(cfg, s, a) && r == Do(cfg, s, a)
    case Blocked(me) => IsBlocked(cfg, s, me) && r == s
  }

  /** The steps of one goroutine in a run. */
  function OwnSteps(ran: seq<Event>, me: Thread): (r: seq<Action>) {
    if ran == [] then []
    else
      var n := |ran| - 1;
      OwnSteps(ran[..n], me) + if ran[n].Step? && Doer(ran[n].a) == Some(me) then [ran[n].a] else []
  }

  /** How many turns it has lost. */
  function LostTurns(ran: seq<Event>, me: Thread): nat {
    if ran == [] then 0
    else
      var n := |ran| - 1;
      LostTurns(ran[..n], me) + if ran[n] == Blocked(me) then 1 else 0
  }

  /** The record of a run: what happened, the states in between, and each goroutine's part in it. */
  datatype Log = Log(ran: seq<Event>, trail: seq<State>, own: map<Thread, seq<Action>>, lost: map<Thread, nat>)
  {
    function Own(me: Thread): seq<Action> {
      if me in own then own[me] else []
    }

    function Lost(me: Thread): nat {
      if me in lost then lost[me] else 0
    }

    /** What happened, and where it led. */
    function Add(e: Event, s: State): Log {
      var more := this.(ran := ran + [e], trail := trail + [s]);
      match e
      case Step(a) =>
        if Doer(a).None? then more else more.(own := own[Doer(a).value := Own(Doer(a).value) + [a]])
      case Blocked(me) => more.(lost := lost[me := Lost(me) + 1])
    }

    /** The record is that of a run from the start to state `s`. */
    ghost predicate LedTo(cfg: Config, s: State) {
      && |trail| == |ran| + 1 && trail[0] == Init(cfg) && trail[|ran|] == s
      && (forall i {:trigger ran[i]} :: 0 <= i < |ran| ==> Happens(cfg, trail[i], ran[i], trail[i + 1]))
      && (forall me {:trigger OwnSteps(ran, me)} :: OwnSteps(ran, me) == Own(me))
      && (forall me {:trigger LostTurns(ran, me)} :: LostTurns(ran, me) == Lost(me))
    }
  }

  lemma LogMore(cfg: Config, log: Log, s: State, e: Event, r: State)
    requires log.LedTo(cfg, s) && Happens(cfg, s, e, r)
    ensures log.Add(e, r).LedTo(cfg, r) && log.ran <= log.Add(e, r).ran
  {
    var more := log.Add(e, r);
    assert more.ran == log.ran + [e] && more.trail == log.trail + [r];
    forall i {:trigger more.ran[i]} | 0 <= i < |more.ran| ensures Happens(cfg, more.trail[i], more.ran[i], more.trail[i + 1]) {
      assert i < |log.ran| ==> more.ran[i] == log.ran[i] && more.trail[i] == log.trail[i] && more.trail[i + 1] == log.trail[i + 1];
    }
    forall me {:trigger OwnSteps(more.ran, me)} ensures OwnSteps(more.ran, me) == more.Own(me) {
      OwnMore(log, e, r, me);
    }
    forall me {:trigger LostTurns(more.ran, me)} ensures LostTurns(more.ran, me) == more.Lost(me) {
      OwnMore(log, e, r, me);
    }
  }

  lemma OwnMore(log: Log, e: Event, r: State, me: Thread)
    requires OwnSteps(log.ran, me) == log.Own(me) && LostTurns(log.ran, me) == log.Lost(me)
    ensures OwnSteps(log.ran + [e], me) == log.Add(e, r).Own(me) && LostTurns(log.ran + [e], me) == log.Add(e, r).Lost(me)
  {
    assert (log.ran + [e])[..|log.ran|] == log.ran;
  }

  /** What the record says happened after a state is a run from there. */
  lemma {:induction false} TrailRuns(cfg: Config, log: Log, s: State, m: nat, n: nat)
    requires log.LedTo(cfg, s) && m <= n <= |log.ran|
    ensures exists schedule :: log.trail[n] == Run(cfg, log.trail[m], schedule)
  {
    if m == n {
      assert Run(cfg, log.trail[m], []) == log.trail[m];
    } else {
      TrailRuns(cfg, log, s, m, n - 1);
      var schedule :| log.trail[n - 1] == Run(cfg, log.trail[m], schedule);
      assert Happens(cfg, log.trail[n - 1], log.ran[n - 1], log.trail[n]);
      if log.ran[n - 1].Step? {
        RunConcat(cfg, log.trail[m], schedule, [log.ran[n - 1].a]);
        assert [log.ran[n - 1].a][1..] == [];
      }
    }
  }

  lemma {:induction false} SameTrail(cfg: Config, log: Log, s: State, more: Log, r: State, n: nat)
    requires log.LedTo(cfg, s) && more.LedTo(cfg, r) && log.ran <= more.ran && n <= |log.ran|
    ensures log.trail[n] == more.trail[n]
  {
    if n > 0 {
      SameTrail(cfg, log, s, more, r, n - 1);
      assert Happens(cfg, log.trail[n - 1], log.ran[n - 1], log.trail[n]);
      assert Happens(cfg, more.trail[n - 1], more.ran[n - 1], more.trail[n]);
    }
  }

  /** A state with a longer record comes later in a run. */
  lemma ComesLater(cfg: Config, log: Log, s: State, more: Log, r: State)
    requires log.LedTo(cfg, s) && more.LedTo(cfg, r) && log.ran <= more.ran
    ensures exists schedule :: r == Run(cfg, s, schedule)
  {
    SameTrail(cfg, log, s, more, r, |log.ran|);
    TrailRuns(cfg, more, r, |log.ran|, |more.ran|);
  }

  lemma LedToReachable(cfg: Config, log: Log, s: State)
    requires log.LedTo(cfg, s)
    ensures Reachable(cfg, s)
  {
    TrailRuns(cfg, log, s, 0, |log.ran|);
  }

  // What is proved of the runs, where the code needs it.

  lemma HasSlot(cfg: Config, log: Log, s: State, p: nat)
    requires 1 <= cfg.batchSize && log.LedTo(cfg, s) && p < |s.producers|
    ensures p < |s.token|
  {
    LedToReachable(cfg, log, s);
    ReachableInv(cfg, s);
  }

  lemma WaitIsOver(cfg: Config, log: Log, s: State, p: nat)
    requires 1 <= cfg.batchSize && log.LedTo(cfg, s) && At(s, p, Returned) && s.producers[p].waits
    ensures p in s.signalled && FlushedOcc(s.flushed, p) == 1
  {
    LedToReachable(cfg, log, s);
    WaitReturnsAfterFlush(cfg, s, p);
  }

  lemma SlotIsFree(cfg: Config, log: Log, s: State, w: nat)
    requires 1 <= cfg.batchSize && log.LedTo(cfg, s) && IsSignalling(s, w) && s.workers[w].pc.i < |s.workers[w].el|
    ensures Enabled(cfg, s, Signal(w))
  {
    LedToReachable(cfg, log, s);
    SignalNeverBlocks(cfg, s, w);
  }

  /** The goroutine's own part of the state is as it was, and what is done is done. */
  predicate Stays(s: State, r: State, me: Thread) {
    && s.flushed <= r.flushed && s.signalled <= r.signalled
    && match me
       case ProducerThread(p) => p < |s.producers| <= |r.producers| && r.producers[p] == s.producers[p]
       case WorkerThread(w) => w < |s.workers| <= |r.workers| && r.workers[w] == s.workers[w]
  }

  lemma OthersLeaveMeAlone(cfg: Config, s: State, a: Action, me: Thread)
    requires Enabled(cfg, s, a) && Doer(a) != Some(me) && Stays(s, s, me)
    ensures Stays(s, Do(cfg, s, a), me)
  {
  }

  /** How many turns of a list are this goroutine's. */
  function MyTurns(turns: seq<Turn>): nat {
    if turns == [] then 0 else (if turns[0] == Mine then 1 else 0) + MyTurns(turns[1..])
  }

  /** `xs`, and then `n` times the step `a`. */
  function Times(xs: seq<Action>, a: Action, n: nat): seq<Action> {
    if n == 0 then xs else Times(xs, a, n - 1) + [a]
  }

  predicate EndsWith(xs: seq<Action>, ys: seq<Action>) {
    |ys| <= |xs| && xs[|xs| - |ys|..] == ys
  }

  lemma Two<T>(xs: seq<T>, a: T, b: T)
    ensures xs + [a] + [b] == xs + [a, b]
  {
  }

  lemma EndsWithLast(xs: seq<Action>, a: Action, b: Action, c: Action, d: Action, e: Action)
    ensures EndsWith(xs + [a] + [b, c] + [d, e], [a, b, c, d, e])
  {
  }

  // ---------------------------------------------------------------------------------------
  // The code
  // ---------------------------------------------------------------------------------------

  /** What startWorker does: it gets a permit and starts a worker, or puts the permit back. */
  function StartSteps(p: nat, started: bool): seq<Action> {
    [LockP(p), Count(p)] + if started then [UnlockP(p), Spawn(p)] else [Restore(p), UnlockP(p)]
  }

  lemma StartStepsInTurn(xs: seq<Action>, p: nat, started: bool)
    ensures xs + [LockP(p), Count(p)] + (if started then [UnlockP(p), Spawn(p)] else [Restore(p), UnlockP(p)])
         == xs + StartSteps(p, started)
  {
  }

  /** A batcher, the goroutines that use it, and the order in which they get their turns. A method
      that says `go` has run to its end; otherwise the turns are used up. */
  class LiveBatcher {
    const cfg: Config
    var readyWorkers: int
    var locked: bool
    var entryChan: seq<nat>
    var slots: seq<bool>         // the one-slot channels of the entries
    var turns: seq<Turn>
    var machine: State           // where every goroutine stands
    ghost var log: Log           // how it got there

    ghost predicate Valid()
      reads this
    {
      && 1 <= cfg.batchSize
      && log.LedTo(cfg, machine)
      && readyWorkers == machine.ready
      && locked == !machine.spin.Free?
      && entryChan == machine.chan
      && slots == machine.token
    }

    /** The goroutine's turns: those to come, those used, and those lost. */
    ghost function AllTurns(me: Thread): nat
      reads this
    {
      MyTurns(turns) + |log.Own(me)| + log.Lost(me)
    }

    constructor (cfg: Config, turns: seq<Turn>)
      requires 1 <= cfg.batchSize
      ensures Valid() && this.cfg == cfg && this.turns == turns && machine == Init(cfg) && log.ran == []
    {
      this.cfg := cfg;
      this.turns := turns;
      readyWorkers, locked, entryChan, slots := cfg.maxWorkers, false, [], [];
      machine := Init(cfg);
      log := Log([], [Init(cfg)], map[], map[]);
    }

    /** A step of another goroutine. */
    method Interleave(a: Action, ghost me: Thread)
      requires Valid() && Enabled(cfg, machine, a) && Doer(a) != Some(me) && Stays(machine, machine, me)
      modifies this`machine, this`readyWorkers, this`locked, this`entryChan, this`slots, this`log
      ensures Valid() && Stays(old(machine), machine, me)
      ensures log.ran == old(log.ran) + [Step(a)] && log.Own(me) == old(log.Own(me)) && AllTurns(me) == old(AllTurns(me))
    {
      OthersLeaveMeAlone(cfg, machine, a, me);
      LogMore(cfg, log, machine, Step(a), Do(cfg, machine, a));
      machine := Do(cfg, machine, a);
      log := log.Add(Step(a), machine);
      readyWorkers, locked, entryChan, slots := machine.ready, !machine.spin.Free?, machine.chan, machine.token;
    }

    /** Lets the others run until it is this goroutine's turn; false if that never comes. */
    method Await(me: Thread) returns (go: bool)
      requires Valid() && Stays(machine, machine, me)
      modifies this
      ensures Valid() && Stays(old(machine), machine, me)
      ensures old(log.ran) <= log.ran && log.Own(me) == old(log.Own(me)) && log.Lost(me) == old(log.Lost(me))
      ensures if go then MyTurns(turns) == MyTurns(old(turns)) - 1 else MyTurns(old(turns)) == 0 && turns == []
    {
      while turns != []
        invariant Valid() && Stays(old(machine), machine, me)
        invariant old(log.ran) <= log.ran && log.Own(me) == old(log.Own(me)) && log.Lost(me) == old(log.Lost(me))
        invariant MyTurns(turns) == MyTurns(old(turns))
        decreases |turns|
      {
        var t := turns[0];
        turns := turns[1..];
        if t == Mine {
          return true;
        }
        if Enabled(cfg, machine, t.a) && Doer(t.a) != Some(me) {
          Interleave(t.a, me);
        }
      }
      return false;
    }

    /** Records that this goroutine has done the step `a`. */
    method Did(a: Action, ghost me: Thread)
      requires 1 <= cfg.batchSize && log.LedTo(cfg, machine) && Enabled(cfg, machine, a)
      modifies this`machine, this`log
      ensures machine == Do(cfg, old(machine), a) && log.LedTo(cfg, machine)
      ensures log.ran == old(log.ran) + [Step(a)] && log.Lost(me) == old(log.Lost(me))
      ensures log.Own(me) == if Doer(a) == Some(me) then old(log.Own(me)) + [a] else old(log.Own(me))
    {
      LogMore(cfg, log, machine, Step(a), Do(cfg, machine, a));
      machine := Do(cfg, machine, a);
      log := log.Add(Step(a), machine);
    }

    /** Records that this goroutine's turn is lost, since it is blocked. */
    ghost method Idle(me: Thread)
      requires Valid() && IsBlocked(cfg, machine, me)
      modifies this`log
      ensures Valid() && log.ran == old(log.ran) + [Blocked(me)]
      ensures log.Own(me) == old(log.Own(me)) && log.Lost(me) == old(log.Lost(me)) + 1
    {
      LogMore(cfg, log, machine, Blocked(me), machine);
      log := log.Add(Blocked(me), machine);
    }

    /** Loses this turn, and waits for the next. */
    method AwaitAgain(me: Thread) returns (go: bool)
      requires Valid() && Stays(machine, machine, me) && IsBlocked(cfg, machine, me)
      modifies this
      ensures Valid() && Stays(old(machine), machine, me)
      ensures old(log.ran) <= log.ran && log.Own(me) == old(log.Own(me))
      ensures AllTurns(me) == old(AllTurns(me)) + if go then 0 else 1
      ensures if go then MyTurns(turns) == MyTurns(old(turns)) - 1 else MyTurns(old(turns)) == 0 && turns == []
    {
      Idle(me);
      go := Await(me);
    }

    /** Spins until the lock is free, and takes it. */
    method Lock(me: Thread, a: Action) returns (go: bool)
      requires Valid() && Stays(machine, machine, me)
      requires (a.LockP? && me == ProducerThread(a.p) && At(machine, a.p, Starting)) ||
               (a.LockW? && me == WorkerThread(a.w) && WorkerAt(machine, a.w, Locking))
      modifies this
      ensures Valid() && old(log.ran) <= log.ran
      ensures AllTurns(me) == old(AllTurns(me))
      ensures log.Own(me) == if go then old(log.Own(me)) + [a] else old(log.Own(me))
      ensures if go then MyTurns(turns) < MyTurns(old(turns)) else turns == []
      ensures !go ==> Stays(old(machine), machine, me)
      ensures go && a.LockP? ==> At(machine, a.p, Counting) && machine.producers[a.p].waits == old(machine.producers[a.p].waits)
      ensures go && a.LockW? ==> WorkerAt(machine, a.w, Locked) && machine.workers[a.w].el == old(machine.workers[a.w].el)
    {
      go := AwaitLock(me);
      if go {
        locked := true;
        Did(a, me);
      }
    }

    method AwaitLock(me: Thread) returns (go: bool)
      requires Valid() && Stays(machine, machine, me)
      requires match me case ProducerThread(p) => At(machine, p, Starting) case WorkerThread(w) => WorkerAt(machine, w, Locking)
      modifies this
      ensures Valid() && old(log.ran) <= log.ran
      ensures AllTurns(me) == old(AllTurns(me)) - if go then 1 else 0
      ensures Stays(old(machine), machine, me) && log.Own(me) == old(log.Own(me))
      ensures if go then MyTurns(turns) < MyTurns(old(turns)) && !locked else turns == []
    {
      go := Await(me);
      while go && locked
        invariant Valid() && Stays(old(machine), machine, me) && old(log.ran) <= log.ran && log.Own(me) == old(log.Own(me))
        invariant AllTurns(me) == old(AllTurns(me)) - if go then 1 else 0
        invariant if go then MyTurns(turns) < MyTurns(old(turns)) else turns == []
        decreases MyTurns(turns), go
      {
        go := AwaitAgain(me);
      }
    }

    /** startWorker, for the call number `p`; the worker is started by the step after it. */
    method StartWorker(p: nat) returns (go: bool, started: bool)
      requires Valid() && At(machine, p, Starting)
      modifies this
      ensures Valid() && old(log.ran) <= log.ran && (!go ==> turns == [])
      ensures AllTurns(ProducerThread(p)) == old(AllTurns(ProducerThread(p)))
      ensures go ==> At(machine, p, Started) && log.Own(ProducerThread(p)) == old(log.Own(ProducerThread(p))) + StartSteps(p, started)
      ensures p < |machine.producers| && machine.producers[p].waits == old(machine.producers[p].waits)
    {
      ghost var own := log.Own(ProducerThread(p));
      go, started := LockAndCount(p);
      if !go { return; }
      StartStepsInTurn(own, p, started);
      if !started {
        go := GiveUp(p);
      } else {
        go := StartOne(p);
      }
    }

    method LockAndCount(p: nat) returns (go: bool, got: bool)
      requires Valid() && At(machine, p, Starting)
      modifies this
      ensures Valid() && old(log.ran) <= log.ran && (!go ==> turns == [])
      ensures AllTurns(ProducerThread(p)) == old(AllTurns(ProducerThread(p)))
      ensures go ==> At(machine, p, if got then Granted else Denied)
      ensures go ==> log.Own(ProducerThread(p)) == old(log.Own(ProducerThread(p))) + [LockP(p), Count(p)]
      ensures p < |machine.producers| && machine.producers[p].waits == old(machine.producers[p].waits)
    {
      Two(log.Own(ProducerThread(p)), LockP(p), Count(p));
      got := false;
      go := Lock(ProducerThread(p), LockP(p));
      if go {
        go, got := TakePermit(p);
      }
    }

    /** Counts the permits down; whether there was one. */
    method TakePermit(p: nat) returns (go: bool, got: bool)
      requires Valid() && At(machine, p, Counting)
      modifies this
      ensures Valid() && old(log.ran) <= log.ran && (!go ==> turns == [])
      ensures AllTurns(ProducerThread(p)) == old(AllTurns(ProducerThread(p)))
      ensures go ==> At(machine, p, if got then Granted else Denied)
      ensures log.Own(ProducerThread(p)) == if go then old(log.Own(ProducerThread(p))) + [Count(p)] else old(log.Own(ProducerThread(p)))
      ensures p < |machine.producers| && machine.producers[p].waits == old(machine.producers[p].waits)
    {
      got := false;
      go := Await(ProducerThread(p));
      if go {
        readyWorkers := readyWorkers - 1;
        got := readyWorkers >= 0;
        Did(Count(p), ProducerThread(p));
      }
    }

    /** Puts the permit back. */
    method GiveUp(p: nat) returns (go: bool)
      requires Valid() && At(machine, p, Denied)
      modifies this
      ensures Valid() && old(log.ran) <= log.ran && (!go ==> turns == []) && (go <==> MyTurns(old(turns)) >= 2)
      ensures AllTurns(ProducerThread(p)) == old(AllTurns(ProducerThread(p)))
      ensures go ==> At(machine, p, Started)
      ensures go ==> log.Own(ProducerThread(p)) == old(log.Own(ProducerThread(p))) + [Restore(p), UnlockP(p)]
      ensures p < |machine.producers| && machine.producers[p].waits == old(machine.producers[p].waits)
    {
      Two(log.Own(ProducerThread(p)), Restore(p), UnlockP(p));
      go := PutBack(p);
      if go {
        go := Unlock(p);
      }
    }

    method PutBack(p: nat) returns (go: bool)
      requires Valid() && At(machine, p, Denied)
      modifies this
      ensures Valid() && old(log.ran) <= log.ran
      ensures AllTurns(ProducerThread(p)) == old(AllTurns(ProducerThread(p)))
      ensures if go then MyTurns(turns) == MyTurns(old(turns)) - 1 else MyTurns(old(turns)) == 0 && turns == []
      ensures go ==> At(machine, p, Restored)
      ensures log.Own(ProducerThread(p)) == if go then old(log.Own(ProducerThread(p))) + [Restore(p)] else old(log.Own(ProducerThread(p)))
      ensures p < |machine.producers| && machine.producers[p].waits == old(machine.producers[p].waits)
    {
      go := Await(ProducerThread(p));
      if go {
        readyWorkers := readyWorkers + 1;
        Did(Restore(p), ProducerThread(p));
      }
    }

    /** Starts a worker. */
    method StartOne(p: nat) returns (go: bool)
      requires Valid() && At(machine, p, Granted)
      modifies this
      ensures Valid() && old(log.ran) <= log.ran && (!go ==> turns == []) && (go <==> MyTurns(old(turns)) >= 2)
      ensures AllTurns(ProducerThread(p)) == old(AllTurns(ProducerThread(p)))
      ensures go ==> At(machine, p, Started)
      ensures go ==> log.Own(ProducerThread(p)) == old(log.Own(ProducerThread(p))) + [UnlockP(p), Spawn(p)]
      ensures p < |machine.producers| && machine.producers[p].waits == old(machine.producers[p].waits)
    {
      Two(log.Own(ProducerThread(p)), UnlockP(p), Spawn(p));
      go := Unlock(p);
      if go {
        go := GoWorker(p);
      }
    }

    method GoWorker(p: nat) returns (go: bool)
      requires Valid() && At(machine, p, Spawning)
      modifies this
      ensures Valid() && old(log.ran) <= log.ran
      ensures AllTurns(ProducerThread(p)) == old(AllTurns(ProducerThread(p)))
      ensures if go then MyTurns(turns) == MyTurns(old(turns)) - 1 else MyTurns(old(turns)) == 0 && turns == []
      ensures go ==> At(machine, p, Started)
      ensures log.Own(ProducerThread(p)) == if go then old(log.Own(ProducerThread(p))) + [Spawn(p)] else old(log.Own(ProducerThread(p)))
      ensures p < |machine.producers| && machine.producers[p].waits == old(machine.producers[p].waits)
    {
      go := Await(ProducerThread(p));
      if go {
        Did(Spawn(p), ProducerThread(p));
      }
    }

    method Unlock(p: nat) returns (go: bool)
      requires Valid() && (At(machine, p, Granted) || At(machine, p, Restored))
      modifies this
      ensures Valid() && old(log.ran) <= log.ran
      ensures AllTurns(ProducerThread(p)) == old(AllTurns(ProducerThread(p)))
      ensures if go then MyTurns(turns) == MyTurns(old(turns)) - 1 else MyTurns(old(turns)) == 0 && turns == []
      ensures go ==> At(machine, p, if old(machine).producers[p].pc.Granted? then Spawning else Started)
      ensures log.Own(ProducerThread(p)) == if go then old(log.Own(ProducerThread(p))) + [UnlockP(p)] else old(log.Own(ProducerThread(p)))
      ensures p < |machine.producers| && machine.producers[p].waits == old(machine.producers[p].waits)
    {
      go := Await(ProducerThread(p));
      if go {
        locked := false;
        Did(UnlockP(p), ProducerThread(p));
      }
    }

    /** Enter, or EnterAndWait if the caller waits. When that has returned, the entry has been
        flushed, once, and signalled. */
    method Enter(waits: bool) returns (p: nat, go: bool, started: bool)
      requires Valid()
      modifies this
      ensures Valid() && old(log.ran) + [Step(Call(waits))] <= log.ran && (!go ==> turns == [])
      ensures AllTurns(ProducerThread(p)) == old(AllTurns(ProducerThread(p)))
      ensures p == |old(machine.producers)| < |machine.producers| && machine.producers[p].waits == waits
      ensures go ==> At(machine, p, Returned)
      ensures go ==> log.Own(ProducerThread(p)) ==
                     old(log.Own(ProducerThread(p))) + [Send(p)] + StartSteps(p, started) + [Return(p)]
      ensures go && waits ==> p in machine.signalled && FlushedOcc(machine.flushed, p) == 1
    {
      p := NewEntry(waits);
      started := false;
      go := SendEntry(p);
      if !go { return; }
      go, started := StartWorker(p);
      if !go { return; }
      go := AwaitSignal(p, waits);
      if !go { return; }
      Wait(p, waits);
    }

    /** A new entry, with an empty one-slot channel. */
    method NewEntry(waits: bool) returns (p: nat)
      requires Valid()
      modifies this
      ensures Valid() && p == |old(machine.producers)| && At(machine, p, Sending) && machine.producers[p].waits == waits
      ensures log.ran == old(log.ran) + [Step(Call(waits))] && turns == old(turns)
      ensures log.Own(ProducerThread(p)) == old(log.Own(ProducerThread(p)))
      ensures log.Lost(ProducerThread(p)) == old(log.Lost(ProducerThread(p)))
    {
      p := |machine.producers|;
      slots := slots + [false];
      Did(Call(waits), ProducerThread(p));
    }

    /** Blocks until the channel has room, and puts the entry into it. */
    method SendEntry(p: nat) returns (go: bool)
      requires Valid() && At(machine, p, Sending)
      modifies this
      ensures Valid() && old(log.ran) <= log.ran && (!go ==> turns == [])
      ensures AllTurns(ProducerThread(p)) == old(AllTurns(ProducerThread(p)))
      ensures go ==> At(machine, p, Starting) && log.Own(ProducerThread(p)) == old(log.Own(ProducerThread(p))) + [Send(p)]
      ensures p < |machine.producers| && machine.producers[p].waits == old(machine.producers[p].waits)
    {
      var me := ProducerThread(p);
      go := Await(me);
      while go && |entryChan| >= cfg.batchSize
        invariant Valid() && Stays(old(machine), machine, me) && old(log.ran) <= log.ran && log.Own(me) == old(log.Own(me))
        invariant AllTurns(me) == old(AllTurns(me)) - if go then 1 else 0
        invariant !go ==> turns == []
        decreases MyTurns(turns), go
      {
        go := AwaitAgain(me);
      }
      if go {
        entryChan := entryChan + [p];
        Did(Send(p), me);
      }
    }

    /** Blocks, for a caller that waits, until there is a signal in the entry's channel. */
    method AwaitSignal(p: nat, waits: bool) returns (go: bool)
      requires Valid() && At(machine, p, Started) && machine.producers[p].waits == waits
      modifies this
      ensures Valid() && old(log.ran) <= log.ran && (!go ==> turns == [])
      ensures AllTurns(ProducerThread(p)) == old(AllTurns(ProducerThread(p))) - if go then 1 else 0
      ensures Stays(old(machine), machine, ProducerThread(p)) && log.Own(ProducerThread(p)) == old(log.Own(ProducerThread(p)))
      ensures go && waits ==> p < |slots| && slots[p]
    {
      var me := ProducerThread(p);
      go := Await(me);
      while go && waits && (p >= |slots| || !slots[p])
        invariant Valid() && Stays(old(machine), machine, me) && old(log.ran) <= log.ran && log.Own(me) == old(log.Own(me))
        invariant AllTurns(me) == old(AllTurns(me)) - if go then 1 else 0
        invariant !go ==> turns == []
        decreases MyTurns(turns), go
      {
        go := AwaitAgain(me);
      }
    }

    /** Takes the signal out of the entry's channel. */
    method Wait(p: nat, waits: bool)
      requires Valid() && At(machine, p, Started) && machine.producers[p].waits == waits && (waits ==> p < |slots| && slots[p])
      modifies this
      ensures Valid() && At(machine, p, Returned) && machine.producers[p].waits == waits
      ensures log.ran == old(log.ran) + [Step(Return(p))] && turns == old(turns)
      ensures log.Lost(ProducerThread(p)) == old(log.Lost(ProducerThread(p)))
      ensures log.Own(ProducerThread(p)) == old(log.Own(ProducerThread(p))) + [Return(p)]
      ensures waits ==> p in machine.signalled && FlushedOcc(machine.flushed, p) == 1
    {
      HasSlot(cfg, log, machine, p);
      if waits {
        slots := slots[p := false];
      }
      Did(Return(p), ProducerThread(p));
      if waits {
        WaitIsOver(cfg, log, machine, p);
      }
    }

    /** The loop of a worker: drain, perhaps nap, leave or flush and signal. It leaves right after
        it has found the channel empty, without another look. */
    method WorkerRun(w: nat) returns (go: bool)
      requires Valid() && WorkerAt(machine, w, Receiving) && machine.workers[w].el == []
      modifies this
      ensures Valid() && old(log.ran) <= log.ran && (!go ==> turns == [])
      ensures AllTurns(WorkerThread(w)) == old(AllTurns(WorkerThread(w)))
      ensures go ==> WorkerAt(machine, w, Exited)
      ensures go ==> EndsWith(log.Own(WorkerThread(w)), [Drained(w), Proceed(w), LockW(w), Give(w), UnlockW(w)])
    {
      var el: seq<nat> := [];
      go := true;
      while true
        invariant Valid() && WorkerAt(machine, w, Receiving) && machine.workers[w].el == el && |el| < cfg.batchSize
        invariant old(log.ran) <= log.ran && AllTurns(WorkerThread(w)) == old(AllTurns(WorkerThread(w)))
        decreases MyTurns(turns)
      {
        ghost var before := log.Own(WorkerThread(w));
        el, go := Collect(w, el);
        if !go { return; }
        var early: bool := *;
        if cfg.minWait && |el| < cfg.batchSize && early {
          go := TakeNap(w);
          if !go { return; }
        } else {
          go := LeaveOrFlush(w, el);
          if !go { return; }
          if |el| == 0 {
            EndsWithLast(before, Drained(w), Proceed(w), LockW(w), Give(w), UnlockW(w));
            return;
          }
          el := [];
        }
      }
    }

    /** Once the batch is complete: an empty one ends the worker. */
    method LeaveOrFlush(w: nat, el: seq<nat>) returns (go: bool)
      requires Valid() && WorkerAt(machine, w, Deciding) && machine.workers[w].el == el
      modifies this
      ensures Valid() && old(log.ran) <= log.ran && MyTurns(turns) <= MyTurns(old(turns)) && (!go ==> turns == [])
      ensures AllTurns(WorkerThread(w)) == old(AllTurns(WorkerThread(w)))
      ensures go ==> WorkerAt(machine, w, if el == [] then Exited else Receiving) && machine.workers[w].el == []
      ensures go ==> var began := old(log.Own(WorkerThread(w))) + [Proceed(w), LockW(w)];
                     log.Own(WorkerThread(w)) == if el == [] then began + [Give(w), UnlockW(w)]
                                               else Times(began + [UnlockW(w), Flush(w)], Signal(w), |el|) + [Again(w)]
      ensures go && el != [] ==> el in machine.flushed && forall i :: 0 <= i < |el| ==> el[i] in machine.signalled
    {
      go := TakeLock(w);
      if !go { return; }
      if |el| == 0 {
        go := Leave(w);
      } else {
        go := FlushAndSignal(w, el);
      }
    }

    method TakeNap(w: nat) returns (go: bool)
      requires Valid() && WorkerAt(machine, w, Deciding) && cfg.minWait && |machine.workers[w].el| < cfg.batchSize
      modifies this
      ensures Valid() && old(log.ran) <= log.ran && MyTurns(turns) <= MyTurns(old(turns)) && (!go ==> turns == [])
      ensures AllTurns(WorkerThread(w)) == old(AllTurns(WorkerThread(w)))
      ensures go ==> WorkerAt(machine, w, Receiving) && machine.workers[w].el == old(machine.workers[w].el)
    {
      go := Await(WorkerThread(w));
      if go {
        Did(Nap(w), WorkerThread(w));
      }
    }

    /** Leaves the inner loop for good and takes the lock. */
    method TakeLock(w: nat) returns (go: bool)
      requires Valid() && WorkerAt(machine, w, Deciding)
      modifies this
      ensures Valid() && old(log.ran) <= log.ran && MyTurns(turns) <= MyTurns(old(turns)) && (!go ==> turns == [])
      ensures AllTurns(WorkerThread(w)) == old(AllTurns(WorkerThread(w)))
      ensures go ==> WorkerAt(machine, w, Locked) && machine.workers[w].el == old(machine.workers[w].el)
      ensures go ==> log.Own(WorkerThread(w)) == old(log.Own(WorkerThread(w))) + [Proceed(w), LockW(w)]
    {
      Two(log.Own(WorkerThread(w)), Proceed(w), LockW(w));
      go := StopTaking(w);
      if go {
        go := Lock(WorkerThread(w), LockW(w));
      }
    }

    method StopTaking(w: nat) returns (go: bool)
      requires Valid() && WorkerAt(machine, w, Deciding)
      modifies this
      ensures Valid() && old(log.ran) <= log.ran && MyTurns(turns) <= MyTurns(old(turns)) && (!go ==> turns == [])
      ensures AllTurns(WorkerThread(w)) == old(AllTurns(WorkerThread(w)))
      ensures go ==> WorkerAt(machine, w, Locking) && machine.workers[w].el == old(machine.workers[w].el)
      ensures go ==> log.Own(WorkerThread(w)) == old(log.Own(WorkerThread(w))) + [Proceed(w)]
    {
      go := Await(WorkerThread(w));
      if go {
        Did(Proceed(w), WorkerThread(w));
      }
    }

    /** The inner loop: takes entries until the channel is empty or the batch is full. */
    method Collect(w: nat, before: seq<nat>) returns (el: seq<nat>, go: bool)
      requires Valid() && WorkerAt(machine, w, Receiving) && machine.workers[w].el == before && |before| < cfg.batchSize
      modifies this
      ensures Valid() && old(log.ran) <= log.ran && before <= el
      ensures AllTurns(WorkerThread(w)) == old(AllTurns(WorkerThread(w)))
      ensures if go then MyTurns(turns) < MyTurns(old(turns)) else turns == []
      ensures go ==> WorkerAt(machine, w, Deciding) && machine.workers[w].el == el && |el| <= cfg.batchSize
      ensures go ==> var taken := Times(old(log.Own(WorkerThread(w))), Take(w), |el| - |before|);
                     log.Own(WorkerThread(w)) == if |el| < cfg.batchSize then taken + [Drained(w)] else taken
    {
      el := before;
      while true
        invariant Valid() && WorkerAt(machine, w, Receiving) && machine.workers[w].el == el
        invariant before <= el && |el| < cfg.batchSize
        invariant old(log.ran) <= log.ran && MyTurns(turns) <= MyTurns(old(turns))
        invariant AllTurns(WorkerThread(w)) == old(AllTurns(WorkerThread(w)))
        invariant log.Own(WorkerThread(w)) == Times(old(log.Own(WorkerThread(w))), Take(w), |el| - |before|)
        decreases MyTurns(turns)
      {
        var more;
        el, go, more := TakeNext(w, el);
        if !go || !more { return; }
      }
    }

    /** One turn of the inner loop; `more` if it goes round again. */
    method TakeNext(w: nat, before: seq<nat>) returns (el: seq<nat>, go: bool, more: bool)
      requires Valid() && WorkerAt(machine, w, Receiving) && machine.workers[w].el == before && |before| < cfg.batchSize
      modifies this
      ensures Valid() && old(log.ran) <= log.ran && before <= el
      ensures AllTurns(WorkerThread(w)) == old(AllTurns(WorkerThread(w)))
      ensures if go then MyTurns(turns) < MyTurns(old(turns)) else turns == [] && el == before
      ensures go ==> WorkerAt(machine, w, if more then Receiving else Deciding) && machine.workers[w].el == el
      ensures go && el == before ==> !more && log.Own(WorkerThread(w)) == old(log.Own(WorkerThread(w))) + [Drained(w)]
      ensures go && el != before ==>
                && |el| == |before| + 1 && more == (|el| < cfg.batchSize)
                && log.Own(WorkerThread(w)) == old(log.Own(WorkerThread(w))) + [Take(w)]
    {
      el, more := before, false;
      go := Await(WorkerThread(w));
      if !go { return; }
      if entryChan == [] {
        Did(Drained(w), WorkerThread(w));
      } else {
        el := TakeOne(w, el);
        more := |el| < cfg.batchSize;
      }
    }

    method TakeOne(w: nat, before: seq<nat>) returns (el: seq<nat>)
      requires Valid() && WorkerAt(machine, w, Receiving) && machine.workers[w].el == before && entryChan != []
      modifies this`entryChan, this`machine, this`log
      ensures Valid() && el == before + [old(entryChan)[0]] && entryChan == old(entryChan)[1..]
      ensures WorkerAt(machine, w, if |el| < cfg.batchSize then Receiving else Deciding) && machine.workers[w].el == el
      ensures log.ran == old(log.ran) + [Step(Take(w))] && log.Lost(WorkerThread(w)) == old(log.Lost(WorkerThread(w)))
      ensures log.Own(WorkerThread(w)) == old(log.Own(WorkerThread(w))) + [Take(w)]
    {
      var e := entryChan[0];
      entryChan := entryChan[1..];
      el := before + [e];
      Did(Take(w), WorkerThread(w));
    }

    /** Gives the permit back and ends. */
    method Leave(w: nat) returns (go: bool)
      requires Valid() && WorkerAt(machine, w, Locked) && machine.workers[w].el == []
      modifies this
      ensures Valid() && old(log.ran) <= log.ran && MyTurns(turns) <= MyTurns(old(turns))
      ensures (!go ==> turns == []) && (go <==> MyTurns(old(turns)) >= 2)
      ensures AllTurns(WorkerThread(w)) == old(AllTurns(WorkerThread(w)))
      ensures go ==> WorkerAt(machine, w, Exited) && machine.workers[w].el == []
      ensures go ==> log.Own(WorkerThread(w)) == old(log.Own(WorkerThread(w))) + [Give(w), UnlockW(w)]
    {
      Two(log.Own(WorkerThread(w)), Give(w), UnlockW(w));
      go := GivePermit(w);
      if go {
        go := UnlockWorker(w);
      }
    }

    method GivePermit(w: nat) returns (go: bool)
      requires Valid() && WorkerAt(machine, w, Locked) && machine.workers[w].el == []
      modifies this
      ensures Valid() && old(log.ran) <= log.ran
      ensures AllTurns(WorkerThread(w)) == old(AllTurns(WorkerThread(w)))
      ensures if go then MyTurns(turns) == MyTurns(old(turns)) - 1 else MyTurns(old(turns)) == 0 && turns == []
      ensures go ==> WorkerAt(machine, w, Leaving) && machine.workers[w].el == []
      ensures log.Own(WorkerThread(w)) == if go then old(log.Own(WorkerThread(w))) + [Give(w)] else old(log.Own(WorkerThread(w)))
    {
      go := Await(WorkerThread(w));
      if go {
        readyWorkers := readyWorkers + 1;
        Did(Give(w), WorkerThread(w));
      }
    }

    method UnlockWorker(w: nat) returns (go: bool)
      requires Valid() && (WorkerAt(machine, w, Leaving) || (WorkerAt(machine, w, Locked) && machine.workers[w].el != []))
      modifies this
      ensures Valid() && old(log.ran) <= log.ran
      ensures AllTurns(WorkerThread(w)) == old(AllTurns(WorkerThread(w)))
      ensures if go then MyTurns(turns) == MyTurns(old(turns)) - 1 else MyTurns(old(turns)) == 0 && turns == []
      ensures go ==> WorkerAt(machine, w, if old(machine).workers[w].pc.Leaving? then Exited else Flushing)
      ensures go ==> machine.workers[w].el == old(machine).workers[w].el
      ensures log.Own(WorkerThread(w)) == if go then old(log.Own(WorkerThread(w))) + [UnlockW(w)] else old(log.Own(WorkerThread(w)))
    {
      go := Await(WorkerThread(w));
      if go {
        locked := false;
        Did(UnlockW(w), WorkerThread(w));
      }
    }

    /** Flushes the batch and signals its entries in order. */
    method FlushAndSignal(w: nat, el: seq<nat>) returns (go: bool)
      requires Valid() && WorkerAt(machine, w, Locked) && machine.workers[w].el == el && el != []
      modifies this
      ensures Valid() && old(log.ran) <= log.ran && MyTurns(turns) <= MyTurns(old(turns))
      ensures AllTurns(WorkerThread(w)) == old(AllTurns(WorkerThread(w)))
      ensures (!go ==> turns == []) && (go <==> MyTurns(old(turns)) >= |el| + 3)
      ensures go ==> WorkerAt(machine, w, Receiving) && machine.workers[w].el == []
      ensures go ==> log.Own(WorkerThread(w)) ==
                     Times(old(log.Own(WorkerThread(w))) + [UnlockW(w), Flush(w)], Signal(w), |el|) + [Again(w)]
      ensures go ==> el in machine.flushed && forall i :: 0 <= i < |el| ==> el[i] in machine.signalled
    {
      Two(log.Own(WorkerThread(w)), UnlockW(w), Flush(w));
      go := UnlockWorker(w);
      if !go { return; }
      go := FlushBatch(w, el);
      if !go { return; }
      go := SignalAll(w, el);
    }

    method FlushBatch(w: nat, el: seq<nat>) returns (go: bool)
      requires Valid() && WorkerAt(machine, w, Flushing) && machine.workers[w].el == el
      modifies this
      ensures Valid() && old(log.ran) <= log.ran
      ensures AllTurns(WorkerThread(w)) == old(AllTurns(WorkerThread(w)))
      ensures if go then MyTurns(turns) == MyTurns(old(turns)) - 1 else MyTurns(old(turns)) == 0 && turns == []
      ensures go ==> w < |machine.workers| && machine.workers[w] == Worker(Signalling(0), el) && el in machine.flushed
      ensures log.Own(WorkerThread(w)) == if go then old(log.Own(WorkerThread(w))) + [Flush(w)] else old(log.Own(WorkerThread(w)))
    {
      go := Await(WorkerThread(w));
      if go {
        Did(Flush(w), WorkerThread(w));
        assert machine.flushed[|machine.flushed| - 1] == el;
      }
    }

    method SignalAll(w: nat, el: seq<nat>) returns (go: bool)
      requires Valid() && w < |machine.workers| && machine.workers[w] == Worker(Signalling(0), el)
      modifies this
      ensures Valid() && old(log.ran) <= log.ran && old(machine).flushed <= machine.flushed && MyTurns(turns) <= MyTurns(old(turns))
      ensures AllTurns(WorkerThread(w)) == old(AllTurns(WorkerThread(w)))
      ensures (!go ==> turns == []) && (go <==> MyTurns(old(turns)) >= |el| + 1)
      ensures go ==> WorkerAt(machine, w, Receiving) && machine.workers[w].el == []
      ensures go ==> log.Own(WorkerThread(w)) == Times(old(log.Own(WorkerThread(w))), Signal(w), |el|) + [Again(w)]
      ensures go ==> forall i :: 0 <= i < |el| ==> el[i] in machine.signalled
    {
      var me := WorkerThread(w);
      var idx := 0;
      while idx < |el|
        invariant 0 <= idx <= |el| && MyTurns(turns) == MyTurns(old(turns)) - idx
        invariant Valid() && w < |machine.workers| && machine.workers[w] == Worker(Signalling(idx), el)
        invariant old(log.ran) <= log.ran && old(machine).flushed <= machine.flushed && log.Own(me) == Times(old(log.Own(me)), Signal(w), idx)
        invariant AllTurns(me) == old(AllTurns(me)) && forall i :: 0 <= i < idx ==> el[i] in machine.signalled
      {
        go := SignalNext(w, el, idx);
        if !go { return; }
        idx := idx + 1;
      }
      go := Await(me);
      if go {
        Did(Again(w), me);
      }
    }

    method SignalNext(w: nat, el: seq<nat>, idx: nat) returns (go: bool)
      requires Valid() && w < |machine.workers| && machine.workers[w] == Worker(Signalling(idx), el) && idx < |el|
      modifies this
      ensures Valid() && old(log.ran) <= log.ran && AllTurns(WorkerThread(w)) == old(AllTurns(WorkerThread(w)))
      ensures if go then MyTurns(turns) == MyTurns(old(turns)) - 1 else MyTurns(old(turns)) == 0 && turns == []
      ensures old(machine).flushed <= machine.flushed && old(machine).signalled <= machine.signalled
      ensures go ==> w < |machine.workers| && machine.workers[w] == Worker(Signalling(idx + 1), el) && el[idx] in machine.signalled
      ensures log.Own(WorkerThread(w)) == if go then old(log.Own(WorkerThread(w))) + [Signal(w)] else old(log.Own(WorkerThread(w)))
    {
      go := Await(WorkerThread(w));
      if go {
        SignalOne(w, el, idx);
        assert machine.signalled[|machine.signalled| - 1] == el[idx];
      }
    }

    method SignalOne(w: nat, el: seq<nat>, idx: nat)
      requires Valid() && w < |machine.workers| && machine.workers[w] == Worker(Signalling(idx), el) && idx < |el|
      modifies this`slots, this`machine, this`log
      ensures Valid() && w < |machine.workers| && machine.workers[w] == Worker(Signalling(idx + 1), el)
      ensures machine.signalled == old(machine.signalled) + [el[idx]] && machine.flushed == old(machine.flushed)
      ensures log.ran == old(log.ran) + [Step(Signal(w))] && log.Lost(WorkerThread(w)) == old(log.Lost(WorkerThread(w)))
      ensures log.Own(WorkerThread(w)) == old(log.Own(WorkerThread(w))) + [Signal(w)]
    {
      SlotIsFree(cfg, log, machine, w);
      slots := slots[el[idx] := true];
      Did(Signal(w), WorkerThread(w));
    }
  }
}
