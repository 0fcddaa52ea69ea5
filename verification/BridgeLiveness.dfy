/** When a forwarder returns (kit/bridge_south.go:251-296, 371-403). A timer lets it return while a
    callback of its session still runs; without one, it can return exactly as long as an eof of its
    session can still be handled. */
module BridgeLiveness {
  import opened Forwarding
  import opened Wrappers
  import opened Bridge
  import opened BridgeInvariant
  import opened BridgeSafety

  /** The forwarder of connection `k` is in its select. */
  predicate IsWaiting(s: State, k: nat)
  {
    k < |s.conns| && IsRequest(s, s.conns[k].gate) && s.tasks[s.conns[k].gate].pc == Waiting(k)
  }

  // ---------------------------------------------------------------------------------------
  // Without an eof to come the forwarder never returns
  // ---------------------------------------------------------------------------------------

  /** No eof of the session of connection `k` can still be handled: those published are lost or
      have been handled already, and the execution will not publish another. */
  ghost predicate NoEofToCome(s: State, k: nat)
  {
    && IsWaiting(s, k) && s.conns[k].cause == Open
    && |s.status| == |s.carriers|
    && s.conns[k].opener < |s.carriers|
    && (match s.status[s.conns[k].opener]
        case InFlight => false
        case Lost => true
        case Taken(t) => IsRequest(s, t) && (s.tasks[t].pc.Finished? || s.tasks[t].pc.Crashed?))
    && forall c | 0 <= c < |s.carriers| && s.carriers[c].kind == Eof && s.carriers[c].session == s.conns[k].session ::
         EofSpent(s, c)
  }

  ghost predicate EofSpent(s: State, c: nat)
    requires c < |s.status|
  {
    match s.status[c]
    case InFlight => false
    case Lost => true
    case Taken(t) => t < |s.tasks| && s.tasks[t].Handle? && s.tasks[t].step.Over?
  }

  lemma NoEofStep(s: State, a: Action, k: nat)
    requires Inv(s) && NoEofToCome(s, k) && Enabled(s, a)
    requires a != Expire(k) && a != RequestDone(s.conns[k].gate)
    ensures NoEofToCome(Do(s, a), k)
    ensures Do(s, a).conns[k].gate == s.conns[k].gate
  {
    KeepsWaiting(s, a, k);
    forall c | 0 <= c < |Do(s, a).carriers| && Do(s, a).carriers[c].kind == Eof && Do(s, a).carriers[c].session == s.conns[k].session
      ensures EofSpent(Do(s, a), c)
    {
      KeepsSpent(s, a, k, c);
    }
  }

  lemma KeepsWaiting(s: State, a: Action, k: nat)
    requires Inv(s) && NoEofToCome(s, k) && Enabled(s, a)
    requires a != Expire(k) && a != RequestDone(s.conns[k].gate)
    ensures var r := Do(s, a);
            && IsWaiting(r, k) && r.conns[k].cause == Open && |r.status| == |r.carriers|
            && r.conns[k].session == s.conns[k].session && r.conns[k].opener == s.conns[k].opener && r.conns[k].gate == s.conns[k].gate
            && r.status[r.conns[k].opener] == s.status[s.conns[k].opener]
  {
    assert ConnOk(s, k);
    if a.Abandon? {
      assert TaskOk(s, a.t);
    } else if Handling(a) {
      HandlingKeepsWaiting(s, a, k);
    }
  }

  lemma HandlingKeepsWaiting(s: State, a: Action, k: nat)
    requires Inv(s) && NoEofToCome(s, k) && Enabled(s, a) && Handling(a)
    ensures var r := Do(s, a);
            && IsWaiting(r, k) && r.conns[k].cause == Open && r.status == s.status
            && r.conns[k].session == s.conns[k].session && r.conns[k].opener == s.conns[k].opener && r.conns[k].gate == s.conns[k].gate
  {
    HandlingFrame(s, a);
    HandlingKeepsWhose(s, a, k);
    if a.CancelConn? {
      assert TaskOk(s, a.t);
    }
  }

  lemma KeepsSpent(s: State, a: Action, k: nat, c: nat)
    requires Inv(s) && NoEofToCome(s, k) && Enabled(s, a)
    requires c < |Do(s, a).carriers| && Do(s, a).carriers[c].kind == Eof && Do(s, a).carriers[c].session == s.conns[k].session
    ensures c < |Do(s, a).status| && EofSpent(Do(s, a), c)
  {
    if a.Close? {
      NoNewEof(s, a, k);
    }
    if c < |s.carriers| {
      assert EofSpent(s, c);
      OldEofKeepsSpent(s, a, c);
    }
  }

  lemma OldEofKeepsSpent(s: State, a: Action, c: nat)
    requires Enabled(s, a) && c < |s.status| && EofSpent(s, c)
    ensures c < |Do(s, a).status| && EofSpent(Do(s, a), c)
  {
  }

  lemma NoNewEof(s: State, a: Action, k: nat)
    requires Inv(s) && NoEofToCome(s, k) && Enabled(s, a) && a.Close?
    ensures s.carriers[s.tasks[a.t].via.value].session != s.conns[k].session
  {
    assert ConnOk(s, k) && TaskOk(s, a.t);
    var via, opener := s.tasks[a.t].via.value, s.conns[k].opener;
    if s.carriers[via].session == s.conns[k].session {
      if via < opener { assert false; }
      if opener < via { assert false; }
    }
  }

  /** A session whose eof can no longer be handled never completes: unless a timer fires, its
      forwarder waits for ever. */
  lemma {:induction false} WaitsForEver(s: State, schedule: seq<Action>, k: nat)
    requires Inv(s) && NoEofToCome(s, k)
    requires Undisturbed(schedule, k, s.conns[k].gate)
    ensures IsWaiting(Run(s, schedule), k)
    decreases |schedule|
  {
    if schedule != [] {
      var a := schedule[0];
      assert a in schedule && Undisturbed(schedule[1..], k, s.conns[k].gate);
      if Enabled(s, a) {
        StepKeepsInv(s, a);
        NoEofStep(s, a, k);
        WaitsForEver(Do(s, a), schedule[1..], k);
      } else {
        WaitsForEver(s, schedule[1..], k);
      }
    }
  }

  // ---------------------------------------------------------------------------------------
  // What else holds in every run
  // ---------------------------------------------------------------------------------------

  /** A carrier that has been taken is in the hands of the task that took it. */
  ghost predicate InHand(s: State, c: nat)
    requires c < |s.carriers| && c < |s.status|
  {
    s.status[c].Taken? ==>
      && s.status[c].task < |s.tasks|
      && var task := s.tasks[s.status[c].task];
      if s.carriers[c].kind == Incoming then task.Request? && task.via == Some(c) else task.Handle? && task.carrier == c
  }

  /** An eof has taken the session of connection `k` out of the map, and will cancel `k` next. */
  predicate Ending(s: State, k: nat)
    requires k < |s.conns|
  {
    && s.conns[k].lock.Some? && IsHandle(s, s.conns[k].lock.value)
    && s.tasks[s.conns[k].lock.value].step == Cancelling(k)
  }

  /** The session of an open connection is in the map, unless its end has begun. */
  ghost predicate Registered(s: State, k: nat)
    requires k < |s.conns|
  {
    s.conns[k].cause == Open ==>
      var key := (s.conns[k].node, s.conns[k].session);
      (key in s.inProgress && s.inProgress[key] == k) || Ending(s, k)
  }

  /** An eof leaves its connection ended. */
  ghost predicate EofEnds(s: State, t: nat)
    requires t < |s.tasks|
  {
    IsHandle(s, t) && s.tasks[t].step.Unlocking? && s.carriers[s.tasks[t].carrier].kind == Eof ==>
      s.conns[s.tasks[t].step.conn].Done()
  }

  ghost predicate Traced(s: State)
  {
    && |s.status| == |s.carriers|
    && (forall c: nat :: c < |s.carriers| ==> InHand(s, c))
    && (forall k: nat :: k < |s.conns| ==> Registered(s, k))
    && (forall t: nat :: t < |s.tasks| ==> EofEnds(s, t))
  }

  /** A session has one connection. */
  lemma OneConnection(s: State, j: nat, k: nat)
    requires Inv(s) && j < |s.conns| && k < |s.conns| && s.conns[j].session == s.conns[k].session
    ensures j == k
  {
    assert ConnOk(s, j) && ConnOk(s, k);
    var c, d := s.conns[j].opener, s.conns[k].opener;
    if c < d { assert false; }
    if d < c { assert false; }
  }

  lemma InHandKept(s: State, a: Action, c: nat)
    requires Inv(s) && Enabled(s, a) && c < |Do(s, a).carriers| && |Do(s, a).status| == |Do(s, a).carriers|
    requires c < |s.carriers| ==> InHand(s, c)
    ensures InHand(Do(s, a), c)
  {
    if Handling(a) {
      HandlingFrame(s, a);
    }
  }

  lemma EofEndsKept(s: State, a: Action, t: nat)
    requires Inv(s) && Enabled(s, a) && t < |Do(s, a).tasks|
    requires t < |s.tasks| ==> EofEnds(s, t)
    ensures EofEnds(Do(s, a), t)
  {
    assert t < |s.tasks| ==> TaskOk(s, t);
    if Handling(a) {
      HandlingEnds(s, a, t);
    }
  }

  lemma HandlingEnds(s: State, a: Action, t: nat)
    requires Inv(s) && Enabled(s, a) && Handling(a) && t < |s.tasks| && EofEnds(s, t)
    ensures t < |Do(s, a).tasks| && EofEnds(Do(s, a), t)
  {
    assert TaskOk(s, t) && TaskOk(s, a.t);
    if a.Lock? || a.Unlock? || a.CancelConn? {
      ConnEnds(s, a, t);
    }
  }

  lemma ConnEnds(s: State, a: Action, t: nat)
    requires Inv(s) && Enabled(s, a) && (a.Lock? || a.Unlock? || a.CancelConn?) && t < |s.tasks| && EofEnds(s, t)
    ensures t < |Do(s, a).tasks| && EofEnds(Do(s, a), t)
  {
  }

  lemma RegisteredKept(s: State, a: Action, k: nat)
    requires Inv(s) && Enabled(s, a) && k < |Do(s, a).conns|
    requires k < |s.conns| ==> Registered(s, k)
    ensures Registered(Do(s, a), k)
  {
    if k >= |s.conns| {
    } else if a.Send? {
      SendRegistered(s, a, k);
    } else if a.Register? {
      RegisterRegistered(s, a, k);
    } else if Handling(a) {
      HandlingRegistered(s, a, k);
    } else {
      assert ConnOk(s, k);
    }
  }

  lemma SendRegistered(s: State, a: Action, k: nat)
    requires Inv(s) && Enabled(s, a) && a.Send? && k < |s.conns| && Registered(s, k)
    ensures k < |Do(s, a).conns| && Registered(Do(s, a), k)
  {
    assert ConnOk(s, k);
  }

  lemma RegisterRegistered(s: State, a: Action, k: nat)
    requires Inv(s) && Enabled(s, a) && a.Register? && k < |s.conns| && Registered(s, k)
    ensures k < |Do(s, a).conns| && Registered(Do(s, a), k)
  {
    assert ConnOk(s, k) && TaskOk(s, a.t);
    var c, opener := s.tasks[a.t].pc.carrier, s.conns[k].opener;
    if s.carriers[c].session == s.conns[k].session {
      if c < opener { assert false; }
      if opener < c { assert false; }
    }
  }

  lemma HandlingRegistered(s: State, a: Action, k: nat)
    requires Inv(s) && Enabled(s, a) && Handling(a) && k < |s.conns| && Registered(s, k)
    ensures k < |Do(s, a).conns| && Registered(Do(s, a), k)
  {
    if a.Delete? {
      DeleteRegistered(s, a, k);
    } else if a.Lock? || a.Unlock? || a.CancelConn? {
      ConnRegistered(s, a, k);
    } else {
      assert ConnOk(s, k);
    }
  }

  lemma DeleteRegistered(s: State, a: Action, k: nat)
    requires Inv(s) && Enabled(s, a) && a.Delete? && k < |s.conns| && Registered(s, k)
    ensures k < |Do(s, a).conns| && Registered(Do(s, a), k)
  {
    assert ConnOk(s, k) && TaskOk(s, a.t);
    if s.conns[s.tasks[a.t].step.conn].session == s.conns[k].session {
      OneConnection(s, s.tasks[a.t].step.conn, k);
    }
  }

  lemma ConnRegistered(s: State, a: Action, k: nat)
    requires Inv(s) && Enabled(s, a) && (a.Lock? || a.Unlock? || a.CancelConn?) && k < |s.conns| && Registered(s, k)
    ensures k < |Do(s, a).conns| && Registered(Do(s, a), k)
  {
    assert ConnOk(s, k) && TaskOk(s, a.t);
  }

  lemma StepKeepsTraced(s: State, a: Action)
    requires Inv(s) && Traced(s) && Enabled(s, a)
    ensures Traced(Do(s, a))
  {
    var r := Do(s, a);
    StepKeepsInv(s, a);
    forall c: nat | c < |r.carriers| ensures InHand(r, c) { InHandKept(s, a, c); }
    forall k: nat | k < |r.conns| ensures Registered(r, k) { RegisteredKept(s, a, k); }
    forall t: nat | t < |r.tasks| ensures EofEnds(r, t) { EofEndsKept(s, a, t); }
  }

  lemma {:induction false} RunKeepsTraced(s: State, schedule: seq<Action>)
    requires Inv(s) && Traced(s)
    ensures Traced(Run(s, schedule))
    decreases |schedule|
  {
    if schedule != [] {
      if Enabled(s, schedule[0]) {
        StepKeepsInv(s, schedule[0]);
        StepKeepsTraced(s, schedule[0]);
        RunKeepsTraced(Do(s, schedule[0]), schedule[1..]);
      } else {
        RunKeepsTraced(s, schedule[1..]);
      }
    }
  }

  lemma ReachableTraced(s: State)
    requires Reachable(s)
    ensures Traced(s)
  {
    var schedule :| s == Run(START, schedule);
    RunKeepsTraced(START, schedule);
  }

  // ---------------------------------------------------------------------------------------
  // With an eof to come it can return
  // ---------------------------------------------------------------------------------------

  /** The forwarder of connection `k`, task `gate`, can return without a timer of its own. */
  ghost predicate CanReturn(s: State, k: nat, gate: nat)
  {
    exists schedule :: Undisturbed(schedule, k, gate) && HasReturned(Run(s, schedule), k)
  }

  lemma NextStep(s: State, a: Action, k: nat, gate: nat)
    requires Enabled(s, a) && a != Expire(k) && a != RequestDone(gate) && CanReturn(Do(s, a), k, gate)
    ensures CanReturn(s, k, gate)
  {
    var rest :| Undisturbed(rest, k, gate) && HasReturned(Run(Do(s, a), rest), k);
    var schedule := [a] + rest;
    assert schedule[1..] == rest;
    assert Undisturbed(schedule, k, gate);
  }

  ghost predicate Waits(s: State, k: nat, gate: nat)
  {
    Reachable(s) && IsWaiting(s, k) && s.conns[k].gate == gate
  }

  /** Steps of others leave the forwarder waiting. */
  lemma StillWaits(s: State, a: Action, k: nat, gate: nat)
    requires Waits(s, k, gate) && Enabled(s, a) && (Handling(a) || Executing(a) || a.Deliver?)
    ensures Waits(Do(s, a), k, gate)
    ensures SameSession(Do(s, a), s, k)
  {
    ReachStep(s, a);
    if Handling(a) {
      HandlingLetsWait(s, a, k);
    } else {
      assert Do(s, a).conns == s.conns;
    }
  }

  predicate SameSession(r: State, s: State, k: nat)
    requires k < |s.conns|
  {
    && k < |r.conns|
    && r.conns[k].session == s.conns[k].session && r.conns[k].node == s.conns[k].node
    && r.conns[k].opener == s.conns[k].opener && r.conns[k].gate == s.conns[k].gate
  }

  lemma HandlingLetsWait(s: State, a: Action, k: nat)
    requires IsWaiting(s, k) && Enabled(s, a) && Handling(a)
    ensures IsWaiting(Do(s, a), k) && SameSession(Do(s, a), s, k)
  {
    HandlingFrame(s, a);
    HandlingKeepsWhose(s, a, k);
  }

  lemma DoneReturns(s: State, k: nat, gate: nat)
    requires Waits(s, k, gate) && s.conns[k].Done()
    ensures CanReturn(s, k, gate)
  {
    ReachableInv(s);
    var r := Do(s, Resume(gate));
    assert Run(r, []) == r && HasReturned(r, k);
    NextStep(s, Resume(gate), k, gate);
  }

  // The eof at its connection.

  lemma CancellingReturns(s: State, t: nat, k: nat, gate: nat)
    requires Waits(s, k, gate) && IsHandle(s, t) && s.tasks[t].step == Cancelling(k)
    ensures CanReturn(s, k, gate)
  {
    ReachableInv(s);
    StillWaits(s, CancelConn(t), k, gate);
    DoneReturns(Do(s, CancelConn(t)), k, gate);
    NextStep(s, CancelConn(t), k, gate);
  }

  lemma DeletingReturns(s: State, t: nat, k: nat, gate: nat)
    requires Waits(s, k, gate) && IsHandle(s, t) && s.tasks[t].step == Deleting(k)
    ensures CanReturn(s, k, gate)
  {
    ReachableInv(s);
    StillWaits(s, Delete(t), k, gate);
    CancellingReturns(Do(s, Delete(t)), t, k, gate);
    NextStep(s, Delete(t), k, gate);
  }

  lemma CheckReturns(s: State, t: nat, k: nat, gate: nat)
    requires Waits(s, k, gate) && IsHandle(s, t) && s.tasks[t].step == Check(k) && s.carriers[s.tasks[t].carrier].kind == Eof
    ensures CanReturn(s, k, gate)
  {
    ReachableInv(s);
    if s.conns[k].Done() {
      DoneReturns(s, k, gate);
    } else {
      StillWaits(s, Test(t), k, gate);
      DeletingReturns(Do(s, Test(t)), t, k, gate);
      NextStep(s, Test(t), k, gate);
    }
  }

  /** The steps of the lock's holder until it gives the lock back. */
  function HolderDistance(s: State, k: nat): nat
    requires k < |s.conns|
  {
    if s.conns[k].lock.None? || !IsHandle(s, s.conns[k].lock.value) then 0
    else match s.tasks[s.conns[k].lock.value].step
      case Check(_) => 3
      case Calling(_) => 2
      case _ => 1
  }

  /** An eof of the session of connection `k`, in the hands of task `t`. */
  ghost predicate EofFor(s: State, t: nat, k: nat)
  {
    && IsHandle(s, t) && k < |s.conns|
    && s.carriers[s.tasks[t].carrier].kind == Eof
    && s.carriers[s.tasks[t].carrier].session == s.conns[k].session
    && s.tasks[t].node == s.conns[k].node
  }

  /** The eof gets the lock: whoever holds it lets the callback return, or is an eof itself. */
  lemma {:induction false} AcquireReturns(s: State, t: nat, k: nat, gate: nat, n: nat)
    requires Waits(s, k, gate) && EofFor(s, t, k) && s.tasks[t].step == Acquire(k) && HolderDistance(s, k) <= n
    ensures CanReturn(s, k, gate)
    decreases n
  {
    ReachableInv(s);
    if s.conns[k].Done() {
      DoneReturns(s, k, gate);
    } else if s.conns[k].lock.None? {
      StillWaits(s, Lock(t), k, gate);
      CheckReturns(Do(s, Lock(t)), t, k, gate);
      NextStep(s, Lock(t), k, gate);
    } else {
      var u := s.conns[k].lock.value;
      HolderHolds(s, k);
      var step := s.tasks[u].step;
      if step.Cancelling? {
        CancellingReturns(s, u, k, gate);
      } else if step.Deleting? {
        DeletingReturns(s, u, k, gate);
      } else if step.Check? && s.carriers[s.tasks[u].carrier].kind == Eof {
        CheckReturns(s, u, k, gate);
      } else {
        var a := HolderStep(s, u);
        HolderSteps(s, t, u, k, gate);
        AcquireReturns(Do(s, a), t, k, gate, n - 1);
        NextStep(s, a, k, gate);
      }
    }
  }

  lemma HolderHolds(s: State, k: nat)
    requires Inv(s) && k < |s.conns| && s.conns[k].lock.Some?
    ensures var u := s.conns[k].lock.value;
            && IsHandle(s, u) && s.tasks[u].step.Holds() && s.tasks[u].step.conn == k
            && s.carriers[s.tasks[u].carrier].kind != Incoming
  {
    assert ConnOk(s, k);
    assert TaskOk(s, s.conns[k].lock.value);
  }

  /** What the holder of a lock does next, other than ending the session. */
  function HolderStep(s: State, u: nat): Action
    requires IsHandle(s, u)
  {
    match s.tasks[u].step
    case Check(_) => Test(u)
    case Calling(_) => CallBack(u)
    case _ => Unlock(u)
  }

  lemma HolderSteps(s: State, t: nat, u: nat, k: nat, gate: nat)
    requires Waits(s, k, gate) && EofFor(s, t, k) && s.tasks[t].step == Acquire(k) && s.conns[k].cause == Open
    requires s.conns[k].lock == Some(u) && IsHandle(s, u) && s.tasks[u].step.Holds() && s.tasks[u].step.conn == k
    requires !s.tasks[u].step.Deleting? && !s.tasks[u].step.Cancelling?
    requires s.tasks[u].step.Check? ==> s.carriers[s.tasks[u].carrier].kind == Outgoing
    ensures var a := HolderStep(s, u);
            && Enabled(s, a) && !a.Expire? && !a.RequestDone?
            && var r := Do(s, a);
            Waits(r, k, gate) && EofFor(r, t, k) && r.tasks[t].step == Acquire(k) && HolderDistance(r, k) < HolderDistance(s, k)
  {
    ReachableInv(s);
    StillWaits(s, HolderStep(s, u), k, gate);
  }

  lemma LookupReturns(s: State, t: nat, k: nat, gate: nat)
    requires Waits(s, k, gate) && EofFor(s, t, k) && s.tasks[t].step == Lookup
    ensures CanReturn(s, k, gate)
  {
    ReachableInv(s);
    ReachableTraced(s);
    assert Registered(s, k);
    if s.conns[k].Done() {
      DoneReturns(s, k, gate);
    } else if Ending(s, k) {
      CancellingReturns(s, s.conns[k].lock.value, k, gate);
    } else {
      var r := Do(s, Find(t));
      StillWaits(s, Find(t), k, gate);
      AcquireReturns(r, t, k, gate, HolderDistance(r, k));
      NextStep(s, Find(t), k, gate);
    }
  }

  lemma EofTakenReturns(s: State, t: nat, k: nat, gate: nat)
    requires Waits(s, k, gate) && EofFor(s, t, k) && !s.tasks[t].step.Over? && s.conns[k].cause == Open
    ensures CanReturn(s, k, gate)
  {
    ReachableInv(s);
    ReachableTraced(s);
    assert TaskOk(s, t) && EofEnds(s, t);
    if s.tasks[t].step.HasConn() {
      OneConnection(s, s.tasks[t].step.conn, k);
    }
    match s.tasks[t].step
    case Lookup => LookupReturns(s, t, k, gate);
    case Acquire(_) => AcquireReturns(s, t, k, gate, HolderDistance(s, k));
    case Check(_) => CheckReturns(s, t, k, gate);
    case Deleting(_) => DeletingReturns(s, t, k, gate);
    case Cancelling(_) => CancellingReturns(s, t, k, gate);
  }

  // The eof on its way.

  lemma EofInFlightReturns(s: State, c: nat, k: nat, gate: nat)
    requires Waits(s, k, gate) && c < |s.carriers| == |s.status| && s.status[c].InFlight?
    requires s.carriers[c].kind == Eof && s.carriers[c].session == s.conns[k].session && s.carriers[c].target == s.conns[k].node
    ensures CanReturn(s, k, gate)
  {
    StillWaits(s, Deliver(c), k, gate);
    LookupReturns(Do(s, Deliver(c)), |s.tasks|, k, gate);
    NextStep(s, Deliver(c), k, gate);
  }

  // The execution that will publish it.

  lemma ClosingReturns(s: State, t: nat, k: nat, gate: nat)
    requires Waits(s, k, gate) && IsRequest(s, t) && s.tasks[t].via == Some(s.conns[k].opener) && s.tasks[t].pc.Closing?
    ensures CanReturn(s, k, gate)
  {
    ReachableInv(s);
    assert ConnOk(s, k);
    StillWaits(s, Close(t, InFlight), k, gate);
    EofInFlightReturns(Do(s, Close(t, InFlight)), |s.carriers|, k, gate);
    NextStep(s, Close(t, InFlight), k, gate);
  }

  lemma ExecutionReturns(s: State, t: nat, k: nat, gate: nat)
    requires Waits(s, k, gate) && IsRequest(s, t) && s.tasks[t].via == Some(s.conns[k].opener)
    requires s.tasks[t].pc.Deciding? || s.tasks[t].pc.Serving?
    ensures CanReturn(s, k, gate)
  {
    ReachableInv(s);
    StillWaits(s, EndChain(t), k, gate);
    ClosingReturns(Do(s, EndChain(t)), t, k, gate);
    NextStep(s, EndChain(t), k, gate);
  }

  lemma RequestInFlightReturns(s: State, k: nat, gate: nat)
    requires Waits(s, k, gate) && s.conns[k].opener < |s.carriers| == |s.status|
    requires s.carriers[s.conns[k].opener].kind == Incoming && s.status[s.conns[k].opener].InFlight?
    ensures CanReturn(s, k, gate)
  {
    var c := s.conns[k].opener;
    StillWaits(s, Deliver(c), k, gate);
    ExecutionReturns(Do(s, Deliver(c)), |s.tasks|, k, gate);
    NextStep(s, Deliver(c), k, gate);
  }

  /** The eof that is missing in NoEofToCome can be brought about. */
  lemma EofToComeReturns(s: State, k: nat)
    requires Reachable(s) && IsWaiting(s, k) && s.conns[k].cause == Open && !NoEofToCome(s, k)
    ensures CanReturn(s, k, s.conns[k].gate)
  {
    ReachableInv(s);
    ReachableTraced(s);
    assert ConnOk(s, k);
    var gate, opener := s.conns[k].gate, s.conns[k].opener;
    assert InHand(s, opener);
    if s.status[opener].InFlight? {
      RequestInFlightReturns(s, k, gate);
    } else if s.status[opener].Taken? && !s.tasks[s.status[opener].task].pc.Finished? && !s.tasks[s.status[opener].task].pc.Crashed? {
      var t := s.status[opener].task;
      assert TaskOk(s, t);
      if s.tasks[t].pc.Closing? {
        ClosingReturns(s, t, k, gate);
      } else {
        ExecutionReturns(s, t, k, gate);
      }
    } else {
      var c: nat :| c < |s.carriers| && s.carriers[c].kind == Eof && s.carriers[c].session == s.conns[k].session && !EofSpent(s, c);
      PublishedEofReturns(s, c, k);
    }
  }

  lemma PublishedEofReturns(s: State, c: nat, k: nat)
    requires Reachable(s) && IsWaiting(s, k) && s.conns[k].cause == Open && c < |s.carriers| == |s.status|
    requires s.carriers[c].kind == Eof && s.carriers[c].session == s.conns[k].session && !EofSpent(s, c)
    ensures CanReturn(s, k, s.conns[k].gate)
  {
    ReachableInv(s);
    ReachableTraced(s);
    assert ConnOk(s, k) && InHand(s, c);
    RepliesGoHome(s, c, s.conns[k].opener);
    if s.status[c].InFlight? {
      EofInFlightReturns(s, c, k, s.conns[k].gate);
    } else {
      assert TaskOk(s, s.status[c].task);
      EofTakenReturns(s, s.status[c].task, k, s.conns[k].gate);
    }
  }

  /** A waiting forwarder can return without a timer of its own exactly when its connection has
      ended already or an eof of its session can still be handled. */
  lemma ReturnsIffEofToCome(s: State, k: nat)
    requires Reachable(s) && IsWaiting(s, k)
    ensures CanReturn(s, k, s.conns[k].gate) <==> !NoEofToCome(s, k)
  {
    ReachableInv(s);
    var gate := s.conns[k].gate;
    if NoEofToCome(s, k) {
      forall schedule | Undisturbed(schedule, k, gate) ensures !HasReturned(Run(s, schedule), k) {
        WaitsForEver(s, schedule, k);
      }
    } else if s.conns[k].Done() {
      DoneReturns(s, k, gate);
    } else {
      EofToComeReturns(s, k);
    }
  }

  // ---------------------------------------------------------------------------------------
  // It happens
  // ---------------------------------------------------------------------------------------

  /** Whenever a callback is running while its forwarder waits, a timeout lets the forwarder
      return at once, and the callback goes on writing to its client. */
  lemma TimeoutOvertakesCallback(s: State, k: nat)
    requires Inv(s) && k < |s.conns| && CallbackRuns(s, k) && IsWaiting(s, k)
    ensures var r := Run(s, [Expire(k), Resume(s.conns[k].gate)]);
            HasReturned(r, k) && CallbackRuns(r, k)
  {
    var g := s.conns[k].gate;
    assert ConnOk(s, k);
    var s1 := Do(s, Expire(k));
    assert [Expire(k), Resume(g)][1..] == [Resume(g)] && [Resume(g)][1..] == [];
    assert Run(s1, [Resume(g)]) == Do(s1, Resume(g));
    var t :| 0 <= t < |s.tasks| && s.tasks[t].Handle? && s.tasks[t].step == Calling(k);
    assert Do(s1, Resume(g)).tasks[t].step == Calling(k);
  }

  /** A request has been sent from "a" to "b"; its session is not registered yet. */
  const SENT_AWAY: State := State(
    [Request("a", false, None, Sent(0))], [Carrier(Incoming, 7, "a", "b", 0)], [InFlight], [], map[], [])

  lemma SentAwayReached()
    ensures Reachable(SENT_AWAY)
  {
    var s1 := State([Request("a", false, None, Deciding)], [], [], [], map[], []);
    var s2 := State([Request("a", false, None, Sending("b"))], [], [], [], map[], []);
    assert START == Run(START, []);
    ReachStep(START, Arrive("a"));
    assert Do(START, Arrive("a")) == s1;
    ReachStep(s1, Decide(0, Target("b")));
    assert Do(s1, Decide(0, Target("b"))) == s2;
    ReachStep(s2, Send(0, 7, InFlight, false));
    assert Do(s2, Send(0, 7, InFlight, false)) == SENT_AWAY;
  }

  /** The session is registered, the request runs at "b" and has written one reply. */
  const REPLYING: State := State(
    [Request("a", false, None, Waiting(0)), Request("b", true, Some(0), Serving)],
    [Carrier(Incoming, 7, "a", "b", 0), Carrier(Outgoing, 7, "b", "a", 1)], [Taken(1), InFlight],
    [Conn("a", 7, 0, 0, Open, None, false)], map[("a", 7) := 0], [])

  lemma ReplyingReached()
    ensures Reachable(REPLYING)
  {
    var s1 := SENT_AWAY.(tasks := [Request("a", false, None, Waiting(0))], conns := REPLYING.conns, inProgress := REPLYING.inProgress);
    var s2 := s1.(tasks := [Request("a", false, None, Waiting(0)), Request("b", true, Some(0), Deciding)], status := [Taken(1)]);
    var s3 := s2.(tasks := REPLYING.tasks);
    SentAwayReached();
    ReachStep(SENT_AWAY, Register(0));
    assert Do(SENT_AWAY, Register(0)) == s1;
    ReachStep(s1, Deliver(0));
    assert Do(s1, Deliver(0)) == s2;
    ReachStep(s2, Decide(1, Failed));
    assert Do(s2, Decide(1, Failed)) == s3;
    ReachStep(s3, Write(1, InFlight));
    assert Do(s3, Write(1, InFlight)) == REPLYING;
  }

  /** The callback of that reply is running. */
  const CALLING_BACK: State := REPLYING.(
    tasks := REPLYING.tasks + [Handle("a", 1, Calling(0))], status := [Taken(1), Taken(2)],
    conns := [Conn("a", 7, 0, 0, Open, Some(2), false)], calls := [(0, 1)])

  lemma CallingBackReached()
    ensures Reachable(CALLING_BACK)
  {
    var s1 := REPLYING.(tasks := REPLYING.tasks + [Handle("a", 1, Lookup)], status := [Taken(1), Taken(2)]);
    ReplyingReached();
    ReachStep(REPLYING, Deliver(1));
    assert Do(REPLYING, Deliver(1)) == s1;
    CallingBackFrom(s1);
  }

  lemma CallingBackFrom(s1: State)
    requires Reachable(s1)
    requires s1 == REPLYING.(tasks := REPLYING.tasks + [Handle("a", 1, Lookup)], status := [Taken(1), Taken(2)])
    ensures Reachable(CALLING_BACK)
  {
    var s2 := s1.(tasks := REPLYING.tasks + [Handle("a", 1, Acquire(0))]);
    var s3 := s2.(tasks := REPLYING.tasks + [Handle("a", 1, Check(0))], conns := CALLING_BACK.conns);
    ReachStep(s1, Find(2));
    assert Do(s1, Find(2)) == s2;
    ReachStep(s2, Lock(2));
    assert Do(s2, Lock(2)) == s3;
    ReachStep(s3, Test(2));
    assert Do(s3, Test(2)) == CALLING_BACK;
  }

  /** So a forwarder can return while a callback still writes to its client. */
  lemma CallbackMayOutliveForwarder()
    ensures exists s :: Reachable(s) && HasReturned(s, 0) && CallbackRuns(s, 0)
  {
    CallingBackReached();
    ReachableInv(CALLING_BACK);
    assert CALLING_BACK.tasks[2].step == Calling(0);
    TimeoutOvertakesCallback(CALLING_BACK, 0);
    var schedule :| CALLING_BACK == Run(START, schedule);
    RunConcat(START, schedule, [Expire(0), Resume(0)]);
  }

  /** The request has run at "b" before "a" registered its session, and the eof is on its way. */
  const EOF_FIRST: State := State(
    [Request("a", false, None, Sent(0)), Request("b", true, Some(0), Finished(1))],
    [Carrier(Incoming, 7, "a", "b", 0), Carrier(Eof, 7, "b", "a", 1)], [Taken(1), InFlight], [], map[], [])

  lemma EofFirstReached()
    ensures Reachable(EOF_FIRST)
  {
    var s1 := SENT_AWAY.(tasks := SENT_AWAY.tasks + [Request("b", true, Some(0), Deciding)], status := [Taken(1)]);
    var s2 := s1.(tasks := SENT_AWAY.tasks + [Request("b", true, Some(0), Closing)]);
    SentAwayReached();
    ReachStep(SENT_AWAY, Deliver(0));
    assert Do(SENT_AWAY, Deliver(0)) == s1;
    ReachStep(s1, EndChain(1));
    assert Do(s1, EndChain(1)) == s2;
    ReachStep(s2, Close(1, InFlight));
    assert Do(s2, Close(1, InFlight)) == EOF_FIRST;
  }

  /** Such sessions are reachable without losing anything: an eof that arrives before its
      session is registered finds no connection. */
  lemma EarlyEofStrandsForwarder()
    ensures exists s :: Reachable(s) && NoEofToCome(s, 0) && forall c :: 0 <= c < |s.status| ==> s.status[c].Taken?
  {
    var s1 := EOF_FIRST.(tasks := EOF_FIRST.tasks + [Handle("a", 1, Lookup)], status := [Taken(1), Taken(2)]);
    var s2 := s1.(tasks := EOF_FIRST.tasks + [Handle("a", 1, Over)]);
    EofFirstReached();
    ReachStep(EOF_FIRST, Deliver(1));
    assert Do(EOF_FIRST, Deliver(1)) == s1;
    ReachStep(s1, Find(2));
    assert Do(s1, Find(2)) == s2;
    RegisteredTooLate(s2);
  }

  lemma RegisteredTooLate(s: State)
    requires Reachable(s)
    requires s == EOF_FIRST.(tasks := EOF_FIRST.tasks + [Handle("a", 1, Over)], status := [Taken(1), Taken(2)])
    ensures exists r :: Reachable(r) && NoEofToCome(r, 0) && forall c :: 0 <= c < |r.status| ==> r.status[c].Taken?
  {
    ReachStep(s, Register(0));
    assert NoEofToCome(Do(s, Register(0)), 0);
  }
}
