/** Which replies reach their callback (kit/bridge_south.go:84-101, 145-151, 371-403). A reply gets
    there unless its look-up finds no connection or its test finds one that is done; and until its
    look-up it can get there exactly as long as its connection is open and no eof has its lock, or the
    session is still to be registered. */
module BridgeDelivery {
  import opened Forwarding
  import opened Wrappers
  import opened Bridge
  import opened BridgeInvariant
  import opened BridgeSafety
  import opened BridgeLiveness

  /** The callback has been started for the carrier. */
  ghost predicate CalledBack(s: State, c: nat)
  {
    exists i :: 0 <= i < |s.calls| && s.calls[i].1 == c
  }

  /** A reply in the hands of task `t`. */
  predicate ReplyAt(s: State, t: nat, c: nat)
  {
    IsHandle(s, t) && s.tasks[t].carrier == c && s.carriers[c].kind == Outgoing
  }

  // ---------------------------------------------------------------------------------------
  // Why a reply was not called back
  // ---------------------------------------------------------------------------------------

  function Key(s: State, t: nat): (NodeId, SessionId)
    requires IsHandle(s, t)
  {
    (s.tasks[t].node, s.carriers[s.tasks[t].carrier].session)
  }

  /** Step `i` of the run is the look-up of task `t`, and its session is not in the map, or it is its
      test, and its connection is done. */
  predicate MissesAt(schedule: seq<Action>, t: nat, i: nat)
    requires i < |schedule|
  {
    var s := Run(START, schedule[..i]);
    || (schedule[i] == Find(t) && Enabled(s, Find(t)) && Key(s, t) !in s.inProgress)
    || (schedule[i] == Test(t) && Enabled(s, Test(t)) && s.conns[s.tasks[t].step.conn].Done())
  }

  ghost predicate Misses(schedule: seq<Action>, t: nat)
  {
    exists i: nat :: i < |schedule| && MissesAt(schedule, t, i)
  }

  lemma MissesLater(schedule: seq<Action>, a: Action, t: nat)
    requires Misses(schedule, t)
    ensures Misses(schedule + [a], t)
  {
    var i: nat :| i < |schedule| && MissesAt(schedule, t, i);
    assert (schedule + [a])[..i] == schedule[..i];
    assert MissesAt(schedule + [a], t, i);
  }

  lemma MissesNow(schedule: seq<Action>, a: Action, t: nat)
    requires var s := Run(START, schedule);
             || (a == Find(t) && Enabled(s, a) && Key(s, t) !in s.inProgress)
             || (a == Test(t) && Enabled(s, a) && s.conns[s.tasks[t].step.conn].Done())
    ensures Misses(schedule + [a], t)
  {
    assert (schedule + [a])[..|schedule|] == schedule;
    assert MissesAt(schedule + [a], t, |schedule|);
  }

  /** What has become of a reply, step by step. */
  ghost predicate Accounted(s: State, t: nat, c: nat, missed: bool)
    requires ReplyAt(s, t, c)
  {
    match s.tasks[t].step
    case Calling(_) => CalledBack(s, c)
    case Unlocking(_) => CalledBack(s, c) || missed
    case Over => CalledBack(s, c) || missed
    case _ => true
  }

  lemma CallsStay(s: State, a: Action, c: nat)
    requires Enabled(s, a) && CalledBack(s, c)
    ensures CalledBack(Do(s, a), c)
  {
    var i :| 0 <= i < |s.calls| && s.calls[i].1 == c;
    assert Do(s, a).calls[i] == s.calls[i];
  }

  lemma AccountedStep(s: State, a: Action, t: nat, c: nat, missed: bool)
    requires Inv(s) && Enabled(s, a) && ReplyAt(Do(s, a), t, c)
    requires ReplyAt(s, t, c) ==> Accounted(s, t, c, missed)
    ensures Accounted(Do(s, a), t, c,
                      missed || (a == Find(t) && Key(s, t) !in s.inProgress)
                      || (a == Test(t) && s.conns[s.tasks[t].step.conn].Done()))
  {
    var r := Do(s, a);
    if t < |s.tasks| && s.tasks[t] == r.tasks[t] {
      assert TaskOk(s, t);
      if CalledBack(s, c) {
        CallsStay(s, a, c);
      }
    } else if t < |s.tasks| {
      OwnReplyStep(s, a, t, c, missed);
    }
  }

  lemma OwnReplyStep(s: State, a: Action, t: nat, c: nat, missed: bool)
    requires Inv(s) && Enabled(s, a) && t < |s.tasks| && ReplyAt(Do(s, a), t, c) && s.tasks[t] != Do(s, a).tasks[t]
    requires ReplyAt(s, t, c) ==> Accounted(s, t, c, missed)
    ensures Accounted(Do(s, a), t, c,
                      missed || (a == Find(t) && Key(s, t) !in s.inProgress)
                      || (a == Test(t) && s.conns[s.tasks[t].step.conn].Done()))
  {
    var r := Do(s, a);
    assert TaskOk(s, t);
    if a == Test(t) && !s.conns[s.tasks[t].step.conn].Done() {
      assert r.calls[|s.calls|].1 == c;
    } else if CalledBack(s, c) {
      CallsStay(s, a, c);
    }
  }

  lemma {:induction false} RepliesAreAccountedFor(schedule: seq<Action>, t: nat, c: nat)
    requires ReplyAt(Run(START, schedule), t, c)
    ensures Accounted(Run(START, schedule), t, c, Misses(schedule, t))
    decreases |schedule|
  {
    if schedule != [] {
      var n := |schedule| - 1;
      var before, a := schedule[..n], schedule[n];
      var s := Run(START, before);
      assert schedule == before + [a];
      RunConcat(START, before, [a]);
      assert [a][1..] == [];
      RunKeepsInv(START, before);
      if ReplyAt(s, t, c) {
        RepliesAreAccountedFor(before, t, c);
      }
      if Misses(before, t) {
        MissesLater(before, a, t);
      }
      if Enabled(s, a) {
        AccountedStep(s, a, t, c, Misses(before, t));
        if (a == Find(t) && Key(s, t) !in s.inProgress) || (a == Test(t) && s.conns[s.tasks[t].step.conn].Done()) {
          MissesNow(before, a, t);
        }
      }
    }
  }

  /** In every run, a reply that has been handled has been called back, unless its session was not in
      the map at the look-up or its connection was done at the test. */
  lemma HandledRepliesWereCalledBack(schedule: seq<Action>, t: nat, c: nat)
    requires ReplyAt(Run(START, schedule), t, c) && Run(START, schedule).tasks[t].step.Over?
    ensures CalledBack(Run(START, schedule), c) || Misses(schedule, t)
  {
    RepliesAreAccountedFor(schedule, t, c);
  }

  // ---------------------------------------------------------------------------------------
  // When a reply can no longer be called back
  // ---------------------------------------------------------------------------------------

  /** An eof has the connection's lock. */
  predicate EofHolds(s: State, k: nat)
    requires k < |s.conns|
  {
    && s.conns[k].lock.Some? && IsHandle(s, s.conns[k].lock.value)
    && s.carriers[s.tasks[s.conns[k].lock.value].carrier].kind == Eof
  }

  /** No reply will be called back on the connection any more. */
  predicate Doomed(s: State, k: nat)
    requires k < |s.conns|
  {
    s.conns[k].Done() || EofHolds(s, k)
  }

  /** The session has a connection on which replies can be called back. */
  ghost predicate OpenTo(s: State, session: SessionId)
  {
    exists k: nat :: k < |s.conns| && s.conns[k].session == session && !Doomed(s, k)
  }

  /** Its forwarder has sent the request and will register the session. */
  ghost predicate ToBeRegistered(s: State, session: SessionId)
  {
    exists g: nat :: g < |s.tasks| && IsAboutToRegister(s, g, session)
  }

  predicate IsAboutToRegister(s: State, g: nat, session: SessionId)
  {
    && IsRequest(s, g) && s.tasks[g].pc.Sent? && s.tasks[g].pc.carrier < |s.carriers|
    && s.carriers[s.tasks[g].pc.carrier].session == session
  }

  /** A reply that will not be called back. */
  ghost predicate Forsaken(s: State, t: nat, c: nat)
  {
    && ReplyAt(s, t, c) && !CalledBack(s, c)
    && match s.tasks[t].step
       case Lookup => !OpenTo(s, s.carriers[c].session) && !ToBeRegistered(s, s.carriers[c].session)
       case Acquire(k) => Doomed(s, k)
       case Check(k) => s.conns[k].Done()
       case Unlocking(_) => true
       case Over => true
       case _ => false
  }

  lemma DoomedStays(s: State, a: Action, k: nat)
    requires Inv(s) && Traced(s) && Enabled(s, a) && k < |s.conns| && Doomed(s, k)
    ensures k < |Do(s, a).conns| && Doomed(Do(s, a), k)
  {
    if s.conns[k].Done() {
      DoneStays(s, a, k);
    } else {
      EofStaysHolding(s, a, k);
    }
  }

  lemma DoneStays(s: State, a: Action, k: nat)
    requires Enabled(s, a) && k < |s.conns| && s.conns[k].Done()
    ensures k < |Do(s, a).conns| && Do(s, a).conns[k].Done()
  {
  }

  lemma EofStaysHolding(s: State, a: Action, k: nat)
    requires Inv(s) && Traced(s) && Enabled(s, a) && k < |s.conns| && !s.conns[k].Done() && EofHolds(s, k)
    ensures k < |Do(s, a).conns| && Doomed(Do(s, a), k)
  {
    var u := s.conns[k].lock.value;
    assert ConnOk(s, k) && TaskOk(s, u) && EofEnds(s, u);
    if !Handling(a) {
      OthersLeaveEof(s, a, k);
    } else if a.t == u {
      HolderStaysOrEnds(s, a, k);
    } else {
      HandlingLeavesLock(s, a, k);
    }
  }

  lemma OthersLeaveEof(s: State, a: Action, k: nat)
    requires Enabled(s, a) && k < |s.conns| && EofHolds(s, k) && !Handling(a)
    ensures k < |Do(s, a).conns| && EofHolds(Do(s, a), k)
  {
  }

  lemma HolderStaysOrEnds(s: State, a: Action, k: nat)
    requires Inv(s) && Enabled(s, a) && Handling(a) && k < |s.conns| && EofHolds(s, k) && !s.conns[k].Done()
    requires a.t == s.conns[k].lock.value && TaskOk(s, a.t) && EofEnds(s, a.t) && ConnOk(s, k)
    ensures k < |Do(s, a).conns| && Doomed(Do(s, a), k)
  {
  }

  lemma HandlingLeavesLock(s: State, a: Action, k: nat)
    requires Inv(s) && Enabled(s, a) && Handling(a) && k < |s.conns| && s.conns[k].lock.Some?
    requires EofHolds(s, k) && a.t != s.conns[k].lock.value
    ensures k < |Do(s, a).conns| && EofHolds(Do(s, a), k)
  {
    assert TaskOk(s, a.t) && ConnOk(s, k);
  }

  /** The session of a published carrier is nobody's fresh one, so no new forwarder gets it. */
  lemma NobodyNewRegisters(s: State, a: Action, c: nat)
    requires Inv(s) && Enabled(s, a) && c < |s.carriers| && !ToBeRegistered(s, s.carriers[c].session)
    ensures !ToBeRegistered(Do(s, a), s.carriers[c].session)
  {
    var r, session := Do(s, a), s.carriers[c].session;
    forall g: nat | g < |r.tasks| ensures !IsAboutToRegister(r, g, session) {
      if g < |s.tasks| {
        assert !IsAboutToRegister(s, g, session);
        assert TaskOk(s, g);
      }
    }
  }

  lemma StaysShut(s: State, a: Action, c: nat)
    requires Inv(s) && Traced(s) && Enabled(s, a) && c < |s.carriers|
    requires !OpenTo(s, s.carriers[c].session) && !ToBeRegistered(s, s.carriers[c].session)
    ensures !OpenTo(Do(s, a), s.carriers[c].session)
  {
    var r, session := Do(s, a), s.carriers[c].session;
    forall k: nat | k < |r.conns| && r.conns[k].session == session ensures Doomed(r, k) {
      NewConnsAreRegistered(s, a, k);
      if k < |s.conns| {
        SessionStays(s, a, k);
        DoomedStays(s, a, k);
      }
    }
  }

  /** A new connection is that of a session somebody was to register. */
  lemma NewConnsAreRegistered(s: State, a: Action, k: nat)
    requires Inv(s) && Enabled(s, a) && k < |Do(s, a).conns|
    ensures k < |s.conns| || ToBeRegistered(s, Do(s, a).conns[k].session)
  {
    if a.Register? {
      assert TaskOk(s, a.t);
      assert k < |s.conns| || IsAboutToRegister(s, a.t, Do(s, a).conns[k].session);
    }
  }

  lemma SessionStays(s: State, a: Action, k: nat)
    requires Enabled(s, a) && k < |s.conns|
    ensures k < |Do(s, a).conns| && Do(s, a).conns[k].session == s.conns[k].session
  {
  }

  /** A callback is only started by the test of its carrier, on a connection that is not done. */
  lemma NotCalledBackYet(s: State, a: Action, t: nat, c: nat)
    requires Inv(s) && Enabled(s, a) && ReplyAt(s, t, c) && !CalledBack(s, c)
    requires a == Test(t) ==> s.conns[s.tasks[t].step.conn].Done()
    ensures !CalledBack(Do(s, a), c)
  {
    assert TaskOk(s, t);
    if a.Test? {
      assert TaskOk(s, a.t);
    }
  }

  lemma ReplyStays(s: State, a: Action, t: nat, c: nat)
    requires Enabled(s, a) && ReplyAt(s, t, c)
    ensures t < |Do(s, a).tasks| && Do(s, a).tasks[t].Handle? && Do(s, a).tasks[t].carrier == c
    ensures c < |Do(s, a).carriers| && Do(s, a).carriers[c] == s.carriers[c]
    ensures Doer(a) != t ==> Do(s, a).tasks[t] == s.tasks[t]
    ensures |s.conns| <= |Do(s, a).conns|
  {
  }

  /** The task whose step an action of handling is. */
  function Doer(a: Action): int
  {
    if Handling(a) then a.t else -1
  }

  lemma ForsakenStep(s: State, a: Action, t: nat, c: nat)
    requires Inv(s) && Traced(s) && Enabled(s, a) && Forsaken(s, t, c)
    ensures Forsaken(Do(s, a), t, c)
  {
    ReplyStays(s, a, t, c);
    NotCalledBackYet(s, a, t, c);
    StepKeepsInv(s, a);
    assert TaskOk(Do(s, a), t);
    if Doer(a) == t {
      OwnForsakenStep(s, a, t, c);
    } else {
      OthersForsake(s, a, t, c);
    }
  }

  lemma OthersForsake(s: State, a: Action, t: nat, c: nat)
    requires Inv(s) && Traced(s) && Enabled(s, a) && Forsaken(s, t, c) && Doer(a) != t
    requires ReplyAt(Do(s, a), t, c) && !CalledBack(Do(s, a), c)
    ensures Forsaken(Do(s, a), t, c)
  {
    ReplyStays(s, a, t, c);
    match s.tasks[t].step
    case Lookup => NobodyNewRegisters(s, a, c); StaysShut(s, a, c);
    case Acquire(k) => DoomedStays(s, a, k);
    case Check(k) => DoneStays(s, a, k);
    case Unlocking(_) =>
    case Over =>
  }

  lemma OwnForsakenStep(s: State, a: Action, t: nat, c: nat)
    requires Inv(s) && Enabled(s, a) && Forsaken(s, t, c) && Handling(a) && a.t == t
    requires ReplyAt(Do(s, a), t, c) && !CalledBack(Do(s, a), c)
    ensures Forsaken(Do(s, a), t, c)
  {
    assert TaskOk(s, t);
    if a.Find? && Key(s, t) in s.inProgress {
      var k := s.inProgress[Key(s, t)];
      assert s.conns[k].session == s.carriers[c].session && Doomed(s, k);
      assert Do(s, a).tasks[t].step == Acquire(k);
      SameHolder(s, a, k);
    }
  }

  lemma SameHolder(s: State, a: Action, k: nat)
    requires Inv(s) && Enabled(s, a) && a.Find? && k < |s.conns| && Doomed(s, k)
    ensures k < |Do(s, a).conns| && Doomed(Do(s, a), k)
  {
    if s.conns[k].lock.Some? {
      assert ConnOk(s, k);
    }
  }

  lemma {:induction false} ForsakenForEver(s: State, schedule: seq<Action>, t: nat, c: nat)
    requires Inv(s) && Traced(s) && Forsaken(s, t, c)
    ensures !CalledBack(Run(s, schedule), c)
    decreases |schedule|
  {
    if schedule != [] {
      if Enabled(s, schedule[0]) {
        StepKeepsInv(s, schedule[0]);
        StepKeepsTraced(s, schedule[0]);
        ForsakenStep(s, schedule[0], t, c);
        ForsakenForEver(Do(s, schedule[0]), schedule[1..], t, c);
      } else {
        ForsakenForEver(s, schedule[1..], t, c);
      }
    }
  }

  // ---------------------------------------------------------------------------------------
  // When a reply can be called back
  // ---------------------------------------------------------------------------------------

  /** No timer and no request's context fires. */
  ghost predicate NoTimers(schedule: seq<Action>)
  {
    forall a :: a in schedule ==> !a.Expire? && !a.RequestDone?
  }

  ghost predicate CanBeCalledBack(s: State, c: nat)
  {
    exists schedule :: NoTimers(schedule) && CalledBack(Run(s, schedule), c)
  }

  lemma OneStepBefore(s: State, a: Action, c: nat)
    requires Enabled(s, a) && !a.Expire? && !a.RequestDone? && CanBeCalledBack(Do(s, a), c)
    ensures CanBeCalledBack(s, c)
  {
    var rest :| NoTimers(rest) && CalledBack(Run(Do(s, a), rest), c);
    var schedule := [a] + rest;
    assert schedule[1..] == rest;
    assert NoTimers(schedule);
  }

  lemma CheckCallsBack(s: State, t: nat, c: nat, k: nat)
    requires Reachable(s) && ReplyAt(s, t, c) && s.tasks[t].step == Check(k) && !s.conns[k].Done()
    ensures CanBeCalledBack(s, c)
  {
    ReachableInv(s);
    var r := Do(s, Test(t));
    assert r.calls[|s.calls|].1 == c;
    assert Run(r, []) == r;
    assert CanBeCalledBack(r, c) by {
      assert NoTimers([]) && CalledBack(Run(r, []), c);
    }
    OneStepBefore(s, Test(t), c);
  }

  /** Whoever has the lock is a reply too, and gives it back. */
  lemma {:induction false} AcquireCallsBack(s: State, t: nat, c: nat, k: nat, n: nat)
    requires Reachable(s) && ReplyAt(s, t, c) && s.tasks[t].step == Acquire(k) && !Doomed(s, k) && HolderDistance(s, k) <= n
    ensures CanBeCalledBack(s, c)
    decreases n
  {
    ReachableInv(s);
    if s.conns[k].lock.None? {
      ReachStep(s, Lock(t));
      CheckCallsBack(Do(s, Lock(t)), t, c, k);
      OneStepBefore(s, Lock(t), c);
    } else {
      var u := s.conns[k].lock.value;
      HolderHolds(s, k);
      assert TaskOk(s, u);
      HolderOfReplySteps(s, t, c, u, k);
      var a := HolderStep(s, u);
      ReachStep(s, a);
      AcquireCallsBack(Do(s, a), t, c, k, n - 1);
      OneStepBefore(s, a, c);
    }
  }

  lemma HolderOfReplySteps(s: State, t: nat, c: nat, u: nat, k: nat)
    requires Inv(s) && ReplyAt(s, t, c) && s.tasks[t].step == Acquire(k) && !Doomed(s, k)
    requires s.conns[k].lock == Some(u) && IsHandle(s, u) && s.tasks[u].step.Holds() && s.tasks[u].step.conn == k
    ensures var a := HolderStep(s, u);
            && Enabled(s, a) && !a.Expire? && !a.RequestDone?
            && var r := Do(s, a);
            ReplyAt(r, t, c) && r.tasks[t].step == Acquire(k) && !Doomed(r, k) && HolderDistance(r, k) < HolderDistance(s, k)
  {
    assert TaskOk(s, u);
  }

  lemma LookupCallsBack(s: State, t: nat, c: nat, k: nat)
    requires Reachable(s) && ReplyAt(s, t, c) && s.tasks[t].step == Lookup
    requires k < |s.conns| && s.conns[k].session == s.carriers[c].session && !Doomed(s, k)
    ensures CanBeCalledBack(s, c)
  {
    ReachableInv(s);
    ReachableTraced(s);
    SameNode(s, t, c, k);
    assert Registered(s, k);
    EndingIsEof(s, k);
    var r := Do(s, Find(t));
    ReachStep(s, Find(t));
    assert r.tasks[t].step == Acquire(k);
    NotDoomedByFinding(s, t, k);
    AcquireCallsBack(r, t, c, k, HolderDistance(r, k));
    OneStepBefore(s, Find(t), c);
  }

  lemma NotDoomedByFinding(s: State, t: nat, k: nat)
    requires Enabled(s, Find(t)) && k < |s.conns| && !Doomed(s, k)
    ensures k < |Do(s, Find(t)).conns| && !Doomed(Do(s, Find(t)), k)
  {
  }

  /** Who is about to end a connection is an eof. */
  lemma EndingIsEof(s: State, k: nat)
    requires Inv(s) && k < |s.conns|
    ensures Ending(s, k) ==> EofHolds(s, k)
  {
    if s.conns[k].lock.Some? {
      assert ConnOk(s, k) && TaskOk(s, s.conns[k].lock.value);
    }
  }

  /** A reply arrives at the node of its connection. */
  lemma SameNode(s: State, t: nat, c: nat, k: nat)
    requires Reachable(s) && ReplyAt(s, t, c) && k < |s.conns| && s.conns[k].session == s.carriers[c].session
    ensures s.conns[k].node == s.tasks[t].node
  {
    ReachableInv(s);
    assert TaskOk(s, t) && ConnOk(s, k);
    RepliesGoHome(s, c, s.conns[k].opener);
  }

  lemma UnregisteredCallsBack(s: State, t: nat, c: nat, g: nat)
    requires Reachable(s) && ReplyAt(s, t, c) && s.tasks[t].step == Lookup && IsAboutToRegister(s, g, s.carriers[c].session)
    ensures CanBeCalledBack(s, c)
  {
    ReachableInv(s);
    ReachStep(s, Register(g));
    LookupCallsBack(Do(s, Register(g)), t, c, |s.conns|);
    OneStepBefore(s, Register(g), c);
  }

  /** A reply at its look-up can still be called back exactly if its session has an open connection
      whose lock no eof has, or has yet to be registered. If it can, no timer is needed; if not, no
      schedule of any kind does it. */
  lemma CalledBackIffOpen(s: State, t: nat, c: nat)
    requires Reachable(s) && ReplyAt(s, t, c) && s.tasks[t].step == Lookup
    ensures var session := s.carriers[c].session;
            var open := OpenTo(s, session) || ToBeRegistered(s, session);
            && (CanBeCalledBack(s, c) <==> open)
            && (!open ==> forall schedule :: !CalledBack(Run(s, schedule), c))
  {
    ReachableInv(s);
    ReachableTraced(s);
    var session := s.carriers[c].session;
    if k: nat :| k < |s.conns| && s.conns[k].session == session && !Doomed(s, k) {
      LookupCallsBack(s, t, c, k);
    } else if g: nat :| g < |s.tasks| && IsAboutToRegister(s, g, session) {
      UnregisteredCallsBack(s, t, c, g);
    } else {
      AtLookupNotCalled(s, t, c);
      forall schedule ensures !CalledBack(Run(s, schedule), c) {
        ForsakenForEver(s, schedule, t, c);
      }
    }
  }

  lemma AtLookupNotCalled(s: State, t: nat, c: nat)
    requires Inv(s) && ReplyAt(s, t, c) && s.tasks[t].step == Lookup
    ensures !CalledBack(s, c)
  {
    assert TaskOk(s, t);
    forall i | 0 <= i < |s.calls| ensures s.calls[i].1 != c {
      assert (s.calls[i].0, c) !in s.calls;
    }
  }
}
