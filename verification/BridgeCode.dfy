/** The code of remote execution (kit/bridge_south.go), goroutine by goroutine, against the step
    machine: each method performs, in the order of its statements, steps of one goroutine, with
    steps of the others, of the network and of the timers in between. What is proved of the
    machine's runs holds of it. */
module BridgeCode {
  import opened Forwarding
  import opened Wrappers
  import opened Bridge
  import opened BridgeInvariant
  import opened BridgeSafety

  // ---------------------------------------------------------------------------------------
  // Whose steps a run is made of
  // ---------------------------------------------------------------------------------------

  /** Whose turn it is: a step of somebody else, or the next one of the goroutine at hand. */
  datatype Turn = Other(a: Action) | Mine

  /** The task whose step an action is. */
  function Doer(a: Action): Option<nat> {
    match a
    case Arrive(_) => None
    case Decide(t, _) => Some(t)
    case Send(t, _, _, _) => Some(t)
    case Register(t) => Some(t)
    case Resume(t) => Some(t)
    case RequestDone(t) => Some(t)
    case Abandon(t) => Some(t)
    case Write(t, _) => Some(t)
    case EndChain(t) => Some(t)
    case Close(t, _) => Some(t)
    case Crash(t) => Some(t)
    case Deliver(_) => None
    case Lose(_) => None
    case Expire(_) => None
    case Find(t) => Some(t)
    case Lock(t) => Some(t)
    case Test(t) => Some(t)
    case CallBack(t) => Some(t)
    case Delete(t) => Some(t)
    case CancelConn(t) => Some(t)
    case Unlock(t) => Some(t)
  }

  /** What happens at a turn: a step, or a task that cannot move loses it. */
  datatype Event = Step(a: Action) | Blocked(me: nat)

  /** The task is at a statement that blocks: the connection's lock is taken, or nothing that the
      select waits for has happened. */
  predicate IsBlocked(s: State, t: nat) {
    || (IsHandle(s, t) && s.tasks[t].step.Acquire? && s.conns[s.tasks[t].step.conn].lock.Some?)
    || (IsRequest(s, t) && s.tasks[t].pc.Waiting? && s.tasks[t].pc.conn < |s.conns| && !s.conns[s.tasks[t].pc.conn].Done())
  }

  predicate Happens(s: State, e: Event, r: State) {
    match e
    case Step(a) => Enabled(s, a) && r == Do(s, a)
    case Blocked(me) => IsBlocked(s, me) && r == s
  }

  /** The steps of one task in a run. */
  function OwnSteps(ran: seq<Event>, me: nat): (r: seq<Action>) {
    if ran == [] then []
    else
      var n := |ran| - 1;
      OwnSteps(ran[..n], me) + if ran[n].Step? && Doer(ran[n].a) == Some(me) then [ran[n].a] else []
  }

  /** How many turns it has lost. */
  function LostTurns(ran: seq<Event>, me: nat): nat {
    if ran == [] then 0
    else
      var n := |ran| - 1;
      LostTurns(ran[..n], me) + if ran[n] == Blocked(me) then 1 else 0
  }

  /** The record of a run: what happened, the states in between, and each task's part in it. */
  datatype Log = Log(ran: seq<Event>, trail: seq<State>, own: map<nat, seq<Action>>, lost: map<nat, nat>)
  {
    function Own(me: nat): seq<Action> {
      if me in own then own[me] else []
    }

    function Lost(me: nat): nat {
      if me in lost then lost[me] else 0
    }

    /** What happened, and where it led. */
    function Add(e: Event, s: State): Log {
      var more := this.(ran := ran + [e], trail := trail + [s]);
      match e
      case Step(a) =>
        if Doer(a).None? then more else more.(own := own[Doer(a).value := Own(Doer(a).value) + [a]])
      case Blocked(me) => more.(lost := lost[me := Lost(me) + 1])
    }

    /** The record is that of a run from the start to state `s`. */
    ghost predicate LedTo(s: State) {
      && |trail| == |ran| + 1 && trail[0] == START && trail[|ran|] == s
      && (forall i {:trigger ran[i]} :: 0 <= i < |ran| ==> Happens(trail[i], ran[i], trail[i + 1]))
      && (forall me {:trigger OwnSteps(ran, me)} :: OwnSteps(ran, me) == Own(me))
      && (forall me {:trigger LostTurns(ran, me)} :: LostTurns(ran, me) == Lost(me))
    }
  }

  lemma LogMore(log: Log, s: State, e: Event, r: State)
    requires log.LedTo(s) && Happens(s, e, r)
    ensures log.Add(e, r).LedTo(r) && log.ran <= log.Add(e, r).ran
  {
    var more := log.Add(e, r);
    assert more.ran == log.ran + [e] && more.trail == log.trail + [r];
    forall i {:trigger more.ran[i]} | 0 <= i < |more.ran| ensures Happens(more.trail[i], more.ran[i], more.trail[i + 1]) {
      assert i < |log.ran| ==> more.ran[i] == log.ran[i] && more.trail[i] == log.trail[i] && more.trail[i + 1] == log.trail[i + 1];
    }
    forall me {:trigger OwnSteps(more.ran, me)} ensures OwnSteps(more.ran, me) == more.Own(me) {
      OwnMore(log, e, r, me);
    }
    forall me {:trigger LostTurns(more.ran, me)} ensures LostTurns(more.ran, me) == more.Lost(me) {
      OwnMore(log, e, r, me);
    }
  }

  lemma OwnMore(log: Log, e: Event, r: State, me: nat)
    requires OwnSteps(log.ran, me) == log.Own(me) && LostTurns(log.ran, me) == log.Lost(me)
    ensures OwnSteps(log.ran + [e], me) == log.Add(e, r).Own(me) && LostTurns(log.ran + [e], me) == log.Add(e, r).Lost(me)
  {
    assert (log.ran + [e])[..|log.ran|] == log.ran;
  }

  /** What the record says happened after a state is a run from there. */
  lemma {:induction false} TrailRuns(log: Log, s: State, m: nat, n: nat)
    requires log.LedTo(s) && m <= n <= |log.ran|
    ensures exists schedule :: log.trail[n] == Run(log.trail[m], schedule)
  {
    if m == n {
      assert Run(log.trail[m], []) == log.trail[m];
    } else {
      TrailRuns(log, s, m, n - 1);
      var schedule :| log.trail[n - 1] == Run(log.trail[m], schedule);
      assert Happens(log.trail[n - 1], log.ran[n - 1], log.trail[n]);
      if log.ran[n - 1].Step? {
        RunConcat(log.trail[m], schedule, [log.ran[n - 1].a]);
        assert [log.ran[n - 1].a][1..] == [];
      }
    }
  }

  lemma {:induction false} SameTrail(log: Log, s: State, more: Log, r: State, n: nat)
    requires log.LedTo(s) && more.LedTo(r) && log.ran <= more.ran && n <= |log.ran|
    ensures log.trail[n] == more.trail[n]
  {
    if n > 0 {
      SameTrail(log, s, more, r, n - 1);
      assert Happens(log.trail[n - 1], log.ran[n - 1], log.trail[n]);
      assert Happens(more.trail[n - 1], more.ran[n - 1], more.trail[n]);
    }
  }

  /** A state with a longer record comes later in a run. */
  lemma ComesLater(log: Log, s: State, more: Log, r: State)
    requires log.LedTo(s) && more.LedTo(r) && log.ran <= more.ran
    ensures exists schedule :: r == Run(s, schedule)
  {
    SameTrail(log, s, more, r, |log.ran|);
    TrailRuns(more, r, |log.ran|, |more.ran|);
  }

  lemma LedToReachable(log: Log, s: State)
    requires log.LedTo(s)
    ensures Reachable(s) && |s.status| == |s.carriers|
  {
    TrailRuns(log, s, 0, |log.ran|);
    ReachableInv(s);
  }

  // What is proved of the runs, where the code needs it.

  lemma CarrierOfHandle(log: Log, s: State, t: nat)
    requires log.LedTo(s) && IsHandle(s, t)
    ensures s.carriers[s.tasks[t].carrier].kind == Outgoing || s.carriers[s.tasks[t].carrier].kind == Eof
  {
    LedToReachable(log, s);
    ReachableInv(s);
    assert TaskOk(s, t);
  }

  lemma FoundConn(log: Log, s: State, t: nat)
    requires log.LedTo(s) && t < |s.tasks| && s.tasks[t].Handle?
    ensures IsHandle(s, t)
  {
    LedToReachable(log, s);
    ReachableInv(s);
    assert TaskOk(s, t);
  }

  lemma ViaPublished(log: Log, s: State, t: nat)
    requires log.LedTo(s) && IsRequest(s, t) && s.tasks[t].via.Some?
    ensures s.tasks[t].via.value < |s.carriers|
  {
    LedToReachable(log, s);
    ReachableInv(s);
    assert TaskOk(s, t);
  }

  lemma ReturnedFrom(log: Log, s: State, t: nat)
    requires log.LedTo(s) && IsRequest(s, t) && s.tasks[t].pc.Returned?
    ensures var k := s.tasks[t].pc.conn; k < |s.conns| && s.conns[k].Done() && s.conns[k].gate == t
  {
    LedToReachable(log, s);
    ReachableInv(s);
    assert TaskOk(s, t);
  }

  lemma ClosedIsGone(log: Log, s: State, k: nat)
    requires log.LedTo(s) && k < |s.conns| && s.conns[k].closed
    ensures (s.conns[k].node, s.conns[k].session) !in s.inProgress
  {
    LedToReachable(log, s);
    ReachableInv(s);
    assert ConnOk(s, k);
  }

  /** Event `at` of the record is the look-up of task `t`, and it found a connection exactly if the
      carrier's session was in progress at its node just before. */
  predicate LookedUp(log: Log, t: nat, at: nat, found: bool) {
    && at < |log.ran| && at < |log.trail| && log.ran[at] == Step(Find(t)) && IsHandle(log.trail[at], t)
    && var s := log.trail[at];
    found == ((s.tasks[t].node, s.carriers[s.tasks[t].carrier].session) in s.inProgress)
  }

  lemma LookUpStays(log: Log, s: State, more: Log, r: State, t: nat, at: nat, found: bool)
    requires log.LedTo(s) && more.LedTo(r) && log.ran <= more.ran && LookedUp(log, t, at, found)
    ensures LookedUp(more, t, at, found)
  {
    SameTrail(log, s, more, r, at);
  }

  /** Whose a connection is, and whether it is done, is for good. */
  predicate SameConn(a: Conn, b: Conn) {
    a.node == b.node && a.session == b.session && a.gate == b.gate && (a.Done() ==> b.Done())
  }

  /** The task is as it was, it has published nothing, and what there was of carriers and
      connections is still there. */
  predicate Stays(s: State, r: State, t: nat) {
    && t < |s.tasks| <= |r.tasks| && r.tasks[t] == s.tasks[t]
    && |s.carriers| <= |r.carriers| && |s.conns| <= |r.conns|
    && (forall c :: 0 <= c < |s.carriers| ==> r.carriers[c] == s.carriers[c])
    && (forall c :: |s.carriers| <= c < |r.carriers| ==> r.carriers[c].sender != t)
    && (forall k :: 0 <= k < |s.conns| ==> SameConn(s.conns[k], r.conns[k]))
  }

  lemma OthersLeaveMeAlone(s: State, a: Action, t: nat)
    requires Enabled(s, a) && Doer(a) != Some(t) && Stays(s, s, t)
    ensures Stays(s, Do(s, a), t)
  {
  }

  lemma StaysTransitive(s: State, r: State, q: State, t: nat)
    requires Stays(s, r, t) && Stays(r, q, t)
    ensures Stays(s, q, t)
  {
  }

  /** How many turns of a list are this goroutine's. */
  function MyTurns(turns: seq<Turn>): nat {
    if turns == [] then 0 else (if turns[0] == Mine then 1 else 0) + MyTurns(turns[1..])
  }

  /** The session ids in use are all below. */
  function NextSession(cs: seq<Carrier>): (n: nat)
    ensures forall c :: 0 <= c < |cs| ==> cs[c].session < n
  {
    if cs == [] then 0
    else
      var n, last := NextSession(cs[..|cs| - 1]), cs[|cs| - 1].session;
      if last < n then n else last + 1
  }

  // ---------------------------------------------------------------------------------------
  // The code
  // ---------------------------------------------------------------------------------------

  /** What handling a carrier on its connection comes to: nothing, since the connection is done; a
      callback; or the end of the session. */
  datatype Outcome = Nothing | Replied | Concluded

  function OutcomeSteps(t: nat, what: Outcome): seq<Action> {
    match what
    case Nothing => [Test(t)]
    case Replied => [Test(t), CallBack(t)]
    case Concluded => [Test(t), Delete(t), CancelConn(t)]
  }

  /** The select returns since the session has ended, or since the request's own context has. */
  function SelectSteps(t: nat, early: bool): seq<Action> {
    if early then [RequestDone(t), Abandon(t)] else [Resume(t)]
  }

  /** What a forwarder can do: decide to stay; try to send, and fail; or send, register, and wait. */
  predicate ForwarderSteps(t: nat, sel: Selection, steps: seq<Action>) {
    && steps != [] && steps[0] == Decide(t, sel)
    && (|steps| == 1 ||
        (&& steps[1].Send? && steps[1].t == t
         && if steps[1].err then |steps| == 2
            else exists early :: steps[2..] == [Register(t)] + SelectSteps(t, early)))
  }

  lemma SentAndWaited(t: nat, sel: Selection, send: Action, early: bool)
    requires send.Send? && send.t == t && !send.err
    ensures ForwarderSteps(t, sel, [Decide(t, sel), send] + ([Register(t)] + SelectSteps(t, early)))
  {
    assert ([Decide(t, sel), send] + ([Register(t)] + SelectSteps(t, early)))[2..] == [Register(t)] + SelectSteps(t, early);
  }

  /** All nodes' bridges: the maps of sessions in progress, the connections in them, and what has
      been published. A method that says `go` has run to its end; otherwise the turns are used up. */
  class SouthBridges {
    var inProgress: map<(NodeId, SessionId), nat>
    var conns: seq<Conn>
    var published: seq<Carrier>
    var turns: seq<Turn>
    var machine: State            // where every goroutine stands
    ghost var log: Log            // how it got there

    ghost predicate Valid()
      reads this
    {
      && log.LedTo(machine) && |machine.status| == |machine.carriers|
      && inProgress == machine.inProgress
      && conns == machine.conns
      && published == machine.carriers
    }

    /** The task's turns: those to come, those used, and those lost. */
    ghost function AllTurns(t: nat): nat
      reads this
    {
      MyTurns(turns) + |log.Own(t)| + log.Lost(t)
    }

    constructor (turns: seq<Turn>)
      ensures Valid() && this.turns == turns && machine == START && log.ran == []
    {
      this.turns := turns;
      inProgress, conns, published := map[], [], [];
      machine := START;
      log := Log([], [START], map[], map[]);
    }

    /** A step of somebody else. */
    method Interleave(a: Action, ghost me: nat)
      requires Valid() && Enabled(machine, a) && Doer(a) != Some(me) && Stays(machine, machine, me)
      modifies this`machine, this`inProgress, this`conns, this`published, this`log
      ensures Valid() && Stays(old(machine), machine, me)
      ensures log.ran == old(log.ran) + [Step(a)] && log.Own(me) == old(log.Own(me)) && log.Lost(me) == old(log.Lost(me))
    {
      OthersLeaveMeAlone(machine, a, me);
      LogMore(log, machine, Step(a), Do(machine, a));
      machine := Do(machine, a);
      log := log.Add(Step(a), machine);
      LedToReachable(log, machine);
      inProgress, conns, published := machine.inProgress, machine.conns, machine.carriers;
    }

    /** Lets the others run until it is this goroutine's turn; false if that never comes. */
    method Await(me: nat) returns (go: bool)
      requires Valid() && Stays(machine, machine, me)
      modifies this
      ensures Valid() && Stays(old(machine), machine, me)
      ensures old(log.ran) <= log.ran && log.Own(me) == old(log.Own(me)) && log.Lost(me) == old(log.Lost(me))
      ensures if go then MyTurns(turns) == MyTurns(old(turns)) - 1 else MyTurns(old(turns)) == 0 && turns == []
    {
      while turns != []
        invariant Valid() && Stays(old(machine), machine, me)
        invariant old(log.ran) <= log.ran && log.Own(me) == old(log.Own(me)) && log.Lost(me) == old(log.Lost(me))
        invariant MyTurns(turns) == MyTurns(old(turns))
        decreases |turns|
      {
        var t := turns[0];
        turns := turns[1..];
        if t == Mine {
          return true;
        }
        if Enabled(machine, t.a) && Doer(t.a) != Some(me) {
          ghost var before := machine;
          Interleave(t.a, me);
          StaysTransitive(old(machine), before, machine, me);
        }
      }
      return false;
    }

    /** Records that this goroutine has done the step `a`. */
    method Did(a: Action, ghost me: nat)
      requires log.LedTo(machine) && Enabled(machine, a) && Doer(a) == Some(me)
      modifies this`machine, this`log
      ensures machine == Do(old(machine), a) && log.LedTo(machine) && |machine.status| == |machine.carriers|
      ensures log.ran == old(log.ran) + [Step(a)]
      ensures log.Own(me) == old(log.Own(me)) + [a] && log.Lost(me) == old(log.Lost(me))
    {
      LogMore(log, machine, Step(a), Do(machine, a));
      machine := Do(machine, a);
      log := log.Add(Step(a), machine);
      LedToReachable(log, machine);
    }

    /** Loses this turn, since the task is blocked, and waits for the next. */
    method AwaitAgain(t: nat) returns (go: bool)
      requires Valid() && Stays(machine, machine, t) && IsBlocked(machine, t)
      modifies this
      ensures Valid() && Stays(old(machine), machine, t)
      ensures old(log.ran) <= log.ran && log.Own(t) == old(log.Own(t)) && AllTurns(t) == old(AllTurns(t)) + if go then 0 else 1
      ensures if go then MyTurns(turns) == MyTurns(old(turns)) - 1 else MyTurns(old(turns)) == 0 && turns == []
    {
      Idle(t);
      go := Await(t);
    }

    ghost method Idle(t: nat)
      requires Valid() && IsBlocked(machine, t)
      modifies this`log
      ensures Valid() && log.ran == old(log.ran) + [Blocked(t)]
      ensures log.Own(t) == old(log.Own(t)) && log.Lost(t) == old(log.Lost(t)) + 1
    {
      LogMore(log, machine, Blocked(t), machine);
      log := log.Add(Blocked(t), machine);
    }

    // Handling a carrier.

    /** The handling of an outgoing or eof carrier. */
    method HandleCarrierMessage(t: nat) returns (go: bool, found: bool, what: Outcome, ghost at: nat)
      requires Valid() && IsHandle(machine, t) && machine.tasks[t].step == Lookup
      modifies this
      ensures Valid() && old(log.ran) <= log.ran && (!go ==> turns == [])
      ensures AllTurns(t) == old(AllTurns(t))
      ensures go ==> |old(log.ran)| <= at && LookedUp(log, t, at, found)
      ensures go ==> IsHandle(machine, t) && machine.tasks[t].step == Over
      ensures go ==> log.Own(t) == old(log.Own(t)) + [Find(t)] + if found then [Lock(t)] + OutcomeSteps(t, what) + [Unlock(t)] else []
      ensures go && found ==> (what == Replied ==> old(machine.carriers[machine.tasks[t].carrier]).kind == Outgoing)
                              && (what == Concluded ==> old(machine.carriers[machine.tasks[t].carrier]).kind == Eof)
    {
      what := Nothing;
      go, found := GetConn(t);
      at := if go then |log.ran| - 1 else 0;
      if go && found {
        ghost var before, s := log, machine;
        go, what := HandleCarrier(t, machine.tasks[t].step.conn);
        LookUpStays(before, s, log, machine, t, at, found);
      }
    }

    /** Looks the carrier's session up: the one connection there is for it at that moment, if any. */
    method GetConn(t: nat) returns (go: bool, found: bool)
      requires Valid() && IsHandle(machine, t) && machine.tasks[t].step == Lookup
      modifies this
      ensures Valid() && old(log.ran) <= log.ran && (!go ==> turns == [])
      ensures AllTurns(t) == old(AllTurns(t))
      ensures go ==> IsHandle(machine, t) && (if found then machine.tasks[t].step.Acquire? else machine.tasks[t].step == Over)
      ensures go ==> log.Own(t) == old(log.Own(t)) + [Find(t)]
      ensures go ==> machine.carriers[machine.tasks[t].carrier] == old(machine.carriers[machine.tasks[t].carrier])
      ensures go ==> |old(log.ran)| < |log.ran| && LookedUp(log, t, |log.ran| - 1, found)
      ensures go && found ==> var key := (machine.tasks[t].node, machine.carriers[machine.tasks[t].carrier].session);
                              key in inProgress && machine.tasks[t].step == Acquire(inProgress[key])
    {
      found := false;
      go := Await(t);
      if go {
        var key := (machine.tasks[t].node, published[machine.tasks[t].carrier].session);
        found := key in inProgress;
        ghost var before, s := log, machine;
        Did(Find(t), t);
        FoundConn(log, machine, t);
        SameTrail(before, s, log, machine, |before.ran|);
      }
    }

    /** A carrier on its connection, under the connection's lock: nothing once the connection's
        context has ended, else the callback or, for an eof, the end of the session. */
    method HandleCarrier(t: nat, k: nat) returns (go: bool, what: Outcome)
      requires Valid() && IsHandle(machine, t) && machine.tasks[t].step == Acquire(k)
      modifies this
      ensures Valid() && old(log.ran) <= log.ran && (!go ==> turns == [])
      ensures AllTurns(t) == old(AllTurns(t))
      ensures go ==> IsHandle(machine, t) && machine.tasks[t].step == Over
      ensures go ==> log.Own(t) == old(log.Own(t)) + ([Lock(t)] + OutcomeSteps(t, what) + [Unlock(t)])
      ensures go && what == Replied ==> old(machine.carriers[machine.tasks[t].carrier]).kind == Outgoing
      ensures go && what == Concluded ==> old(machine.carriers[machine.tasks[t].carrier]).kind == Eof
    {
      ghost var own := log.Own(t);
      what := Nothing;
      go := LockConn(t, k);
      if !go { return; }
      go, what := Dispatch(t, k);
      if !go { return; }
      Regroup(own, [Lock(t)], OutcomeSteps(t, what), [Unlock(t)]);
      go := UnlockConn(t, k);
    }

    method LockConn(t: nat, k: nat) returns (go: bool)
      requires Valid() && IsHandle(machine, t) && machine.tasks[t].step == Acquire(k)
      modifies this
      ensures Valid() && old(log.ran) <= log.ran && (!go ==> turns == [])
      ensures AllTurns(t) == old(AllTurns(t))
      ensures go ==> IsHandle(machine, t) && machine.tasks[t].step == Check(k) && machine.conns[k].lock == Some(t)
      ensures go ==> log.Own(t) == old(log.Own(t)) + [Lock(t)]
      ensures go ==> machine.carriers[machine.tasks[t].carrier] == old(machine.carriers[machine.tasks[t].carrier])
    {
      go := AwaitLock(t, k);
      if go {
        conns := conns[k := conns[k].(lock := Some(t))];
        Did(Lock(t), t);
      }
    }

    method AwaitLock(t: nat, k: nat) returns (go: bool)
      requires Valid() && IsHandle(machine, t) && machine.tasks[t].step == Acquire(k)
      modifies this
      ensures Valid() && old(log.ran) <= log.ran && (!go ==> turns == [])
      ensures AllTurns(t) == old(AllTurns(t)) - if go then 1 else 0
      ensures Stays(old(machine), machine, t) && log.Own(t) == old(log.Own(t))
      ensures go ==> conns[k].lock == None
    {
      go := Await(t);
      while go && conns[k].lock != None
        invariant Valid() && Stays(old(machine), machine, t) && old(log.ran) <= log.ran && log.Own(t) == old(log.Own(t))
        invariant AllTurns(t) == old(AllTurns(t)) - if go then 1 else 0
        invariant !go ==> turns == []
        decreases MyTurns(turns), go
      {
        ghost var before := machine;
        go := AwaitAgain(t);
        StaysTransitive(old(machine), before, machine, t);
      }
    }

    method UnlockConn(t: nat, k: nat) returns (go: bool)
      requires Valid() && IsHandle(machine, t) && machine.tasks[t].step == Unlocking(k)
      modifies this
      ensures Valid() && old(log.ran) <= log.ran && (!go ==> turns == []) && (go <==> MyTurns(old(turns)) >= 1)
      ensures AllTurns(t) == old(AllTurns(t))
      ensures go ==> IsHandle(machine, t) && machine.tasks[t].step == Over && k < |conns| && conns[k].lock == None
      ensures go ==> log.Own(t) == old(log.Own(t)) + [Unlock(t)]
    {
      go := Await(t);
      if go {
        conns := conns[k := conns[k].(lock := None)];
        Did(Unlock(t), t);
      }
    }

    /** Tests the connection's context and acts on the kind of the carrier. */
    method Dispatch(t: nat, k: nat) returns (go: bool, what: Outcome)
      requires Valid() && IsHandle(machine, t) && machine.tasks[t].step == Check(k)
      modifies this
      ensures Valid() && old(log.ran) <= log.ran && (!go ==> turns == [])
      ensures AllTurns(t) == old(AllTurns(t))
      ensures go ==> IsHandle(machine, t) && machine.tasks[t].step == Unlocking(k)
      ensures go ==> log.Own(t) == old(log.Own(t)) + OutcomeSteps(t, what)
      ensures go && what == Nothing ==> conns[k].Done()
      ensures go && what == Replied ==> old(machine.carriers[machine.tasks[t].carrier]).kind == Outgoing
      ensures go && what == Concluded ==> old(machine.carriers[machine.tasks[t].carrier]).kind == Eof && conns[k].closed
    {
      ghost var own := log.Own(t);
      assert own + [Test(t)] + [CallBack(t)] == own + [Test(t), CallBack(t)];
      assert own + [Test(t)] + [Delete(t), CancelConn(t)] == own + [Test(t), Delete(t), CancelConn(t)];
      go, what := TestConn(t, k);
      if go && what == Replied {
        go := CallCallback(t, k);
      } else if go && what == Concluded {
        go := EndSession(t, k);
      }
    }

    /** What is to be done with the carrier. */
    method TestConn(t: nat, k: nat) returns (go: bool, what: Outcome)
      requires Valid() && IsHandle(machine, t) && machine.tasks[t].step == Check(k)
      modifies this
      ensures Valid() && old(log.ran) <= log.ran && (!go ==> turns == [])
      ensures AllTurns(t) == old(AllTurns(t))
      ensures go ==> IsHandle(machine, t) && log.Own(t) == old(log.Own(t)) + [Test(t)]
      ensures go ==> var kind := old(machine.carriers[machine.tasks[t].carrier]).kind;
                     && k < |conns| && what == (if conns[k].Done() then Nothing else if kind == Outgoing then Replied else Concluded)
                     && machine.tasks[t].step == (match what case Nothing => Unlocking(k) case Replied => Calling(k) case Concluded => Deleting(k))
                     && (what == Concluded ==> kind == Eof)
    {
      CarrierOfHandle(log, machine, t);
      what := Nothing;
      go := Await(t);
      if go {
        if !conns[k].Done() {
          what := if published[machine.tasks[t].carrier].kind == Outgoing then Replied else Concluded;
        }
        Did(Test(t), t);
      }
    }

    /** The callback runs, and returns. */
    method CallCallback(t: nat, k: nat) returns (go: bool)
      requires Valid() && IsHandle(machine, t) && machine.tasks[t].step == Calling(k)
      modifies this
      ensures Valid() && old(log.ran) <= log.ran && (!go ==> turns == []) && (go <==> MyTurns(old(turns)) >= 1)
      ensures AllTurns(t) == old(AllTurns(t))
      ensures go ==> IsHandle(machine, t) && machine.tasks[t].step == Unlocking(k)
      ensures go ==> log.Own(t) == old(log.Own(t)) + [CallBack(t)]
    {
      go := Await(t);
      if go {
        Did(CallBack(t), t);
      }
    }

    /** Takes the session out of the map, then cancels its connection. */
    method EndSession(t: nat, k: nat) returns (go: bool)
      requires Valid() && IsHandle(machine, t) && machine.tasks[t].step == Deleting(k)
      modifies this
      ensures Valid() && old(log.ran) <= log.ran && (!go ==> turns == []) && (go <==> MyTurns(old(turns)) >= 2)
      ensures AllTurns(t) == old(AllTurns(t))
      ensures go ==> IsHandle(machine, t) && machine.tasks[t].step == Unlocking(k)
      ensures go ==> log.Own(t) == old(log.Own(t)) + [Delete(t), CancelConn(t)]
      ensures go ==> conns[k].closed && conns[k].Done() && (conns[k].node, conns[k].session) !in inProgress
    {
      ghost var own := log.Own(t);
      assert own + [Delete(t)] + [CancelConn(t)] == own + [Delete(t), CancelConn(t)];
      go := DeleteSession(t, k);
      if go {
        go := Cancel(t, k);
      }
    }

    method DeleteSession(t: nat, k: nat) returns (go: bool)
      requires Valid() && IsHandle(machine, t) && machine.tasks[t].step == Deleting(k)
      modifies this
      ensures Valid() && old(log.ran) <= log.ran && (!go ==> turns == []) && (go <==> MyTurns(old(turns)) >= 1)
      ensures AllTurns(t) == old(AllTurns(t)) && (go ==> MyTurns(turns) == MyTurns(old(turns)) - 1)
      ensures go ==> IsHandle(machine, t) && machine.tasks[t].step == Cancelling(k)
      ensures go ==> log.Own(t) == old(log.Own(t)) + [Delete(t)]
    {
      go := Await(t);
      if go {
        inProgress := inProgress - {(machine.tasks[t].node, conns[k].session)};
        Did(Delete(t), t);
      }
    }

    method Cancel(t: nat, k: nat) returns (go: bool)
      requires Valid() && IsHandle(machine, t) && machine.tasks[t].step == Cancelling(k)
      modifies this
      ensures Valid() && old(log.ran) <= log.ran && (!go ==> turns == []) && (go <==> MyTurns(old(turns)) >= 1)
      ensures AllTurns(t) == old(AllTurns(t))
      ensures go ==> IsHandle(machine, t) && machine.tasks[t].step == Unlocking(k)
      ensures go ==> log.Own(t) == old(log.Own(t)) + [CancelConn(t)]
      ensures go ==> conns[k].closed && conns[k].Done() && (conns[k].node, conns[k].session) !in inProgress
    {
      go := Await(t);
      if go {
        conns := conns[k := conns[k].Cancel(ByEof).(closed := true)];
        Did(CancelConn(t), t);
        ClosedIsGone(log, machine, k);
      }
    }

    // The forwarder.

    /** The forwarder. It stops the chain exactly when it has tried to send the request away, and
        returns from a session it has opened only when that session's connection is done. */
    method Forwarder(t: nat, sel: Selection) returns (go: bool, stops: bool, ghost steps: seq<Action>)
      requires Valid() && IsRequest(machine, t) && machine.tasks[t].pc == Deciding
      modifies this
      ensures Valid() && old(log.ran) <= log.ran && (!go ==> turns == [])
      ensures AllTurns(t) == old(AllTurns(t))
      ensures go ==> IsRequest(machine, t)
                     && (stops <==> !old(machine.tasks[t]).forwarded && sel != Failed && sel.id != "" && sel.id != old(machine.tasks[t]).node)
      ensures go ==> log.Own(t) == old(log.Own(t)) + steps && ForwarderSteps(t, sel, steps) && (stops <==> |steps| > 1)
      ensures go && !stops ==> machine.tasks[t].pc == Serving
      ensures go && stops ==> if |steps| == 2 then machine.tasks[t].pc.Refused?
                              else machine.tasks[t].pc.Returned? && machine.tasks[t].pc.conn < |conns| &&
                                   conns[machine.tasks[t].pc.conn].Done() && conns[machine.tasks[t].pc.conn].gate == t
    {
      ghost var own := log.Own(t);
      steps := [Decide(t, sel)];
      go, stops := Choose(t, sel);
      if !go || !stops { return; }
      var self := machine.tasks[t].node;
      var session, err, fate;
      go, session, err, fate := SendAway(t, self, sel.id);
      if !go { return; }
      steps := [Decide(t, sel), Send(t, session, fate, err)];
      assert own + [Decide(t, sel)] + [Send(t, session, fate, err)] == own + steps;
      if err { return; }
      var early;
      go, early := WaitForEnd(t, self, session);
      if !go { return; }
      SentAndWaited(t, sel, steps[1], early);
      Regroup(own, steps, [Register(t)] + SelectSteps(t, early), []);
      steps := steps + ([Register(t)] + SelectSteps(t, early));
      ReturnedFrom(log, machine, t);
    }

    /** Whether the request goes away. */
    method Choose(t: nat, sel: Selection) returns (go: bool, away: bool)
      requires Valid() && IsRequest(machine, t) && machine.tasks[t].pc == Deciding
      modifies this
      ensures Valid() && old(log.ran) <= log.ran && (!go ==> turns == [])
      ensures AllTurns(t) == old(AllTurns(t))
      ensures go ==> away == Forwards(old(machine.tasks[t]).forwarded, old(machine.tasks[t]).node, sel)
      ensures go ==> IsRequest(machine, t) && machine.tasks[t].pc == if away then Sending(sel.id) else Serving
      ensures go ==> log.Own(t) == old(log.Own(t)) + [Decide(t, sel)]
    {
      away := false;
      go := Await(t);
      if go {
        var forwarded, self := machine.tasks[t].forwarded, machine.tasks[t].node;
        Did(Decide(t, sel), t);
        away := !(forwarded || sel.Failed? || sel.id == "" || sel.id == self);
      }
    }

    method SendAway(t: nat, self: NodeId, target: NodeId) returns (go: bool, session: nat, err: bool, fate: Status)
      requires Valid() && IsRequest(machine, t) && machine.tasks[t].pc == Sending(target) && machine.tasks[t].node == self
      modifies this
      ensures Valid() && old(log.ran) <= log.ran && (!go ==> turns == [])
      ensures AllTurns(t) == old(AllTurns(t))
      ensures go ==> IsRequest(machine, t) && machine.tasks[t].node == self
      ensures go ==> if err then machine.tasks[t].pc.Refused? else SentAs(machine, t, session)
      ensures go ==> log.Own(t) == old(log.Own(t)) + [Send(t, session, fate, err)]
    {
      session, err, fate := 0, false, InFlight;
      go := Await(t);
      if go {
        session, err, fate := SendMessage(t, self, target);
      }
    }

    /** Publishes the incoming carrier under a fresh session id; the carrier of a failed publish
        may be lost or not. */
    method SendMessage(t: nat, self: NodeId, target: NodeId) returns (session: nat, err: bool, fate: Status)
      requires Valid() && IsRequest(machine, t) && machine.tasks[t].pc == Sending(target) && machine.tasks[t].node == self
      modifies this`machine, this`published, this`inProgress, this`log
      ensures Valid() && IsRequest(machine, t) && machine.tasks[t].node == self
      ensures log.ran == old(log.ran) + [Step(Send(t, session, fate, err))]
      ensures log.Own(t) == old(log.Own(t)) + [Send(t, session, fate, err)] && log.Lost(t) == old(log.Lost(t))
      ensures published == old(published) + [Carrier(Incoming, session, self, target, t)]
      ensures forall c :: 0 <= c < |old(published)| ==> old(published)[c].session != session
      ensures machine.status == old(machine.status) + [fate] && !fate.Taken?
      ensures inProgress == if err then old(inProgress) - {(self, session)} else old(inProgress)
      ensures if err then machine.tasks[t].pc == Refused(|old(published)|) else machine.tasks[t].pc == Sent(|old(published)|)
      ensures !err ==> SentAs(machine, t, session)
    {
      session := NextSession(published);
      var lost: bool;
      err, lost := *, *;
      fate := if lost then Lost else InFlight;
      published := published + [Carrier(Incoming, session, self, target, t)];
      if err {
        inProgress := inProgress - {(self, session)};
      }
      Did(Send(t, session, fate, err), t);
    }

    method WaitForEnd(t: nat, self: NodeId, session: nat) returns (go: bool, early: bool)
      requires Valid() && IsRequest(machine, t) && machine.tasks[t].node == self && SentAs(machine, t, session)
      modifies this
      ensures Valid() && old(log.ran) <= log.ran && (!go ==> turns == [])
      ensures AllTurns(t) == old(AllTurns(t))
      ensures go ==> IsRequest(machine, t) && machine.tasks[t].pc.Returned?
      ensures go ==> log.Own(t) == old(log.Own(t)) + ([Register(t)] + SelectSteps(t, early))
    {
      ghost var own := log.Own(t);
      early := false;
      var k;
      go, k := OpenSession(t, self, session);
      if !go { return; }
      go, early := Select(t, k);
      Regroup(own, [Register(t)], SelectSteps(t, early), []);
    }

    method OpenSession(t: nat, self: NodeId, session: nat) returns (go: bool, k: nat)
      requires Valid() && IsRequest(machine, t) && machine.tasks[t].node == self && SentAs(machine, t, session)
      modifies this
      ensures Valid() && old(log.ran) <= log.ran && (!go ==> turns == [])
      ensures AllTurns(t) == old(AllTurns(t))
      ensures go ==> IsRequest(machine, t) && machine.tasks[t].pc == Waiting(k) && k < |conns|
      ensures go ==> log.Own(t) == old(log.Own(t)) + [Register(t)]
    {
      k := 0;
      go := Await(t);
      if go {
        k := CreateSenderConn(t, self, session);
      }
    }

    /** Registers the session, with a new connection, once the request has been sent. */
    method CreateSenderConn(t: nat, self: NodeId, session: nat) returns (k: nat)
      requires Valid() && IsRequest(machine, t) && machine.tasks[t].node == self && SentAs(machine, t, session)
      modifies this`machine, this`conns, this`inProgress, this`log
      ensures Valid() && IsRequest(machine, t) && machine.tasks[t].pc == Waiting(k)
      ensures log.ran == old(log.ran) + [Step(Register(t))]
      ensures log.Own(t) == old(log.Own(t)) + [Register(t)] && log.Lost(t) == old(log.Lost(t))
      ensures k == |old(conns)| && conns == old(conns) + [Conn(self, session, old(machine.tasks[t]).pc.carrier, t, Open, None, false)]
      ensures inProgress == old(inProgress)[(self, session) := k]
    {
      k := |conns|;
      conns := conns + [Conn(self, session, machine.tasks[t].pc.carrier, t, Open, None, false)];
      inProgress := inProgress[(self, session) := k];
      Did(Register(t), t);
    }

    /** Waits for the session to end, or for the request's own context, which ends the session. */
    method Select(t: nat, k: nat) returns (go: bool, early: bool)
      requires Valid() && IsRequest(machine, t) && machine.tasks[t].pc == Waiting(k) && k < |conns|
      modifies this
      ensures Valid() && old(log.ran) <= log.ran && (!go ==> turns == [])
      ensures AllTurns(t) == old(AllTurns(t))
      ensures go ==> IsRequest(machine, t) && machine.tasks[t].pc == Returned(k)
      ensures go ==> log.Own(t) == old(log.Own(t)) + SelectSteps(t, early)
    {
      go, early := AwaitEnd(t, k);
      if !go { return; }
      if !early {
        Did(Resume(t), t);
      } else {
        ghost var own := log.Own(t);
        assert own + [RequestDone(t)] + [Abandon(t)] == own + [RequestDone(t), Abandon(t)];
        Did(RequestDone(t), t);
        go := CancelOwn(t, k);
      }
    }

    method AwaitEnd(t: nat, k: nat) returns (go: bool, early: bool)
      requires Valid() && IsRequest(machine, t) && machine.tasks[t].pc == Waiting(k) && k < |conns|
      modifies this
      ensures Valid() && old(log.ran) <= log.ran && (!go ==> turns == [])
      ensures AllTurns(t) == old(AllTurns(t)) - if go then 1 else 0
      ensures Stays(old(machine), machine, t) && log.Own(t) == old(log.Own(t))
      ensures go ==> early == !conns[k].Done()
    {
      go := Await(t);
      var requestDone: bool := *;
      while go && !conns[k].Done() && !requestDone
        invariant Valid() && Stays(old(machine), machine, t) && old(log.ran) <= log.ran && log.Own(t) == old(log.Own(t))
        invariant AllTurns(t) == old(AllTurns(t)) - if go then 1 else 0
        invariant !go ==> turns == []
        decreases MyTurns(turns), go
      {
        ghost var before := machine;
        go := AwaitAgain(t);
        StaysTransitive(old(machine), before, machine, t);
        requestDone := *;
      }
      early := !conns[k].Done();
    }

    /** Cancels the session whose request is over. */
    method CancelOwn(t: nat, k: nat) returns (go: bool)
      requires Valid() && IsRequest(machine, t) && machine.tasks[t].pc == Abandoning(k) && k < |conns|
      modifies this
      ensures Valid() && old(log.ran) <= log.ran && (!go ==> turns == []) && (go <==> MyTurns(old(turns)) >= 1)
      ensures AllTurns(t) == old(AllTurns(t))
      ensures go ==> IsRequest(machine, t) && machine.tasks[t].pc == Returned(k) && k < |conns| && conns[k].Done()
      ensures go ==> log.Own(t) == old(log.Own(t)) + [Abandon(t)]
    {
      go := Await(t);
      if go {
        conns := conns[k := conns[k].Cancel(ByRequest)];
        Did(Abandon(t), t);
      }
    }

    // Execution at the target.

    /** The end of an incoming carrier's execution: one eof, for its origin, and nothing else. */
    method Finish(t: nat) returns (go: bool, fate: Status)
      requires Valid() && IsRequest(machine, t) && machine.tasks[t].pc == Serving && machine.tasks[t].via.Some?
      modifies this
      ensures Valid() && old(log.ran) <= log.ran && (!go ==> turns == []) && (go <==> MyTurns(old(turns)) >= 2)
      ensures AllTurns(t) == old(AllTurns(t))
      ensures go ==> log.Own(t) == old(log.Own(t)) + [EndChain(t), Close(t, fate)]
      ensures go ==> IsRequest(machine, t) && machine.tasks[t].pc.Finished? && machine.tasks[t].via == old(machine.tasks[t]).via
      ensures go ==> var eof, via := machine.tasks[t].pc.eof, machine.tasks[t].via.value;
                     && |old(published)| <= eof < |published| && via < |old(published)|
                     && published[eof] == Carrier(Eof, old(published)[via].session, old(machine.tasks[t]).node, old(published)[via].origin, t)
                     && forall c :: |old(published)| <= c < |published| && c != eof ==> published[c].sender != t
    {
      ghost var own := log.Own(t);
      fate := InFlight;
      ViaPublished(log, machine, t);
      go := FinishChain(t);
      if !go { return; }
      go, fate := SendEof(t);
      assert own + [EndChain(t)] + [Close(t, fate)] == own + [EndChain(t), Close(t, fate)];
    }

    method SendEof(t: nat) returns (go: bool, fate: Status)
      requires Valid() && IsRequest(machine, t) && machine.tasks[t].pc == Closing && machine.tasks[t].via.Some?
      requires machine.tasks[t].via.value < |published|
      modifies this
      ensures Valid() && old(log.ran) <= log.ran && (!go ==> turns == []) && (go <==> MyTurns(old(turns)) >= 1)
      ensures AllTurns(t) == old(AllTurns(t))
      ensures go ==> log.Own(t) == old(log.Own(t)) + [Close(t, fate)]
      ensures go ==> |old(published)| < |published| && forall c :: 0 <= c < |old(published)| ==> published[c] == old(published)[c]
      ensures go ==> IsRequest(machine, t) && machine.tasks[t] == old(machine.tasks[t]).(pc := Finished(|published| - 1))
      ensures go ==> var via := old(published)[machine.tasks[t].via.value];
                     && published[|published| - 1] == Carrier(Eof, via.session, machine.tasks[t].node, via.origin, t)
                     && forall c :: |old(published)| <= c < |published| - 1 ==> published[c].sender != t
    {
      fate := InFlight;
      go := Await(t);
      if go {
        fate := PublishEof(t);
      }
    }

    method FinishChain(t: nat) returns (go: bool)
      requires Valid() && IsRequest(machine, t) && machine.tasks[t].pc == Serving && machine.tasks[t].via.Some?
      modifies this
      ensures Valid() && old(log.ran) <= log.ran && (!go ==> turns == []) && (go <==> MyTurns(old(turns)) >= 1)
      ensures AllTurns(t) == old(AllTurns(t)) && (go ==> MyTurns(turns) == MyTurns(old(turns)) - 1)
      ensures go ==> log.Own(t) == old(log.Own(t)) + [EndChain(t)]
      ensures go ==> IsRequest(machine, t) && machine.tasks[t] == old(machine.tasks[t]).(pc := Closing)
      ensures go ==> |old(published)| <= |published|
                     && (forall c :: 0 <= c < |old(published)| ==> published[c] == old(published)[c])
                     && (forall c :: |old(published)| <= c < |published| ==> published[c].sender != t)
    {
      go := Await(t);
      if go {
        Did(EndChain(t), t);
      }
    }

    method PublishEof(t: nat) returns (fate: Status)
      requires Valid() && IsRequest(machine, t) && machine.tasks[t].pc == Closing && machine.tasks[t].via.Some?
      requires machine.tasks[t].via.value < |published|
      modifies this`machine, this`published, this`log
      ensures Valid() && log.ran == old(log.ran) + [Step(Close(t, fate))]
      ensures log.Own(t) == old(log.Own(t)) + [Close(t, fate)] && log.Lost(t) == old(log.Lost(t))
      ensures IsRequest(machine, t) && machine.tasks[t] == old(machine.tasks[t]).(pc := Finished(|old(published)|))
      ensures var via := old(published)[machine.tasks[t].via.value];
              published == old(published) + [Carrier(Eof, via.session, machine.tasks[t].node, via.origin, t)]
    {
      var via := published[machine.tasks[t].via.value];
      var lost: bool := *;
      fate := if lost then Lost else InFlight;
      published := published + [Carrier(Eof, via.session, machine.tasks[t].node, via.origin, t)];
      Did(Close(t, fate), t);
    }

    /** A reply: an outgoing carrier to the node the request came from. */
    method WriteEnvelope(t: nat) returns (fate: Status)
      requires Valid() && IsRequest(machine, t) && machine.tasks[t].pc == Serving && machine.tasks[t].via.Some?
      modifies this`machine, this`published, this`log
      ensures Valid() && log.ran == old(log.ran) + [Step(Write(t, fate))]
      ensures IsRequest(machine, t) && machine.tasks[t] == old(machine.tasks[t])
      ensures log.Own(t) == old(log.Own(t)) + [Write(t, fate)] && log.Lost(t) == old(log.Lost(t))
      ensures var via := machine.tasks[t].via.value;
              via < |old(published)| &&
              published == old(published) +
                [Carrier(Outgoing, old(published)[via].session, machine.tasks[t].node, old(published)[via].origin, t)]
    {
      ViaPublished(log, machine, t);
      var via := published[machine.tasks[t].via.value];
      var lost: bool := *;
      fate := if lost then Lost else InFlight;
      published := published + [Carrier(Outgoing, via.session, machine.tasks[t].node, via.origin, t)];
      Did(Write(t, fate), t);
    }
  }

  /** The task has published the incoming carrier of this session and not registered it yet. */
  predicate SentAs(s: State, t: nat, session: nat) {
    && IsRequest(s, t) && s.tasks[t].pc.Sent?
    && s.tasks[t].pc.carrier < |s.carriers| && s.carriers[s.tasks[t].pc.carrier].session == session
  }
}
