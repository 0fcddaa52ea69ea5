/** What holds over all runs of the remote-execution machine (kit/bridge_south.go). */
module BridgeSafety {
  import opened Forwarding
  import opened Wrappers
  import opened Bridge
  import opened BridgeInvariant

  ghost predicate Reachable(s: State)
  {
    exists schedule :: s == Run(START, schedule)
  }

  lemma ReachableInv(s: State)
    requires Reachable(s)
    ensures Inv(s)
  {
    var schedule :| s == Run(START, schedule);
    RunKeepsInv(START, schedule);
  }

  /** A callback of connection `k` is running. */
  ghost predicate CallbackRuns(s: State, k: nat)
  {
    exists t :: 0 <= t < |s.tasks| && s.tasks[t].Handle? && s.tasks[t].step == Calling(k)
  }

  // ---------------------------------------------------------------------------------------
  // Once the eof of a session has been handled
  // ---------------------------------------------------------------------------------------

  /** `r` is a later state in which connection `k` is still closed, its key is gone, and no
      callback of it runs or has been started since `s`. */
  ghost predicate StaysClosed(s: State, r: State, k: nat)
  {
    && k < |s.conns| && k < |r.conns|
    && r.conns[k].closed
    && r.conns[k].node == s.conns[k].node && r.conns[k].session == s.conns[k].session
    && (r.conns[k].node, r.conns[k].session) !in r.inProgress
    && !CallbackRuns(r, k)
    && |s.calls| <= |r.calls|
    && r.calls[..|s.calls|] == s.calls
    && forall i :: |s.calls| <= i < |r.calls| ==> r.calls[i].0 != k
  }

  lemma ClosedNow(s: State, k: nat)
    requires Inv(s) && k < |s.conns| && s.conns[k].closed
    ensures StaysClosed(s, s, k)
  {
    assert ConnOk(s, k);
    forall t | 0 <= t < |s.tasks| && s.tasks[t].Handle? ensures s.tasks[t].step != Calling(k) {
      assert TaskOk(s, t);
    }
  }

  lemma ClosedStep(s: State, a: Action, k: nat)
    requires Inv(s) && Enabled(s, a) && k < |s.conns| && s.conns[k].closed
    ensures var r := Do(s, a);
            && |s.conns| <= |r.conns| && r.conns[k].closed
            && r.conns[k].node == s.conns[k].node && r.conns[k].session == s.conns[k].session
            && (r.calls == s.calls || (|r.calls| == |s.calls| + 1 && r.calls[..|s.calls|] == s.calls && r.calls[|s.calls|].0 != k))
  {
    assert ConnOk(s, k);
  }

  /** Once the eof of a session has been handled, no carrier of the session ever runs its
      callback again and the session is gone from inProgress, whatever happens next. */
  lemma {:induction false} ClosedForever(s: State, schedule: seq<Action>, k: nat)
    requires Inv(s) && k < |s.conns| && s.conns[k].closed
    ensures StaysClosed(s, Run(s, schedule), k)
    decreases |schedule|
  {
    if schedule == [] {
      ClosedNow(s, k);
    } else if Enabled(s, schedule[0]) {
      var m := Do(s, schedule[0]);
      var r := Run(m, schedule[1..]);
      StepKeepsInv(s, schedule[0]);
      ClosedStep(s, schedule[0], k);
      ClosedForever(m, schedule[1..], k);
      assert r.calls[..|s.calls|] == r.calls[..|m.calls|][..|s.calls|];
      assert forall i :: |s.calls| <= i < |m.calls| ==> r.calls[i] == r.calls[..|m.calls|][i];
    } else {
      ClosedForever(s, schedule[1..], k);
    }
  }

  // ---------------------------------------------------------------------------------------
  // When the forwarder returns
  // ---------------------------------------------------------------------------------------

  /** The forwarder of connection `k` has returned. */
  predicate HasReturned(s: State, k: nat)
  {
    k < |s.conns| && IsRequest(s, s.conns[k].gate) && s.tasks[s.conns[k].gate].pc == Returned(k)
  }

  /** In the schedule, neither the timeout of connection `k` nor the context of the request
      behind it, task `gate`, fires. What other sessions' timers do does not matter. */
  ghost predicate Undisturbed(schedule: seq<Action>, k: nat, gate: nat)
  {
    Expire(k) !in schedule && RequestDone(gate) !in schedule
  }

  /** Nothing but an eof has ended connection `k`. */
  predicate EofOnly(s: State, k: nat, gate: nat)
  {
    k < |s.conns| && s.conns[k].gate == gate ==>
      && (s.conns[k].cause == Open || s.conns[k].cause == ByEof)
      && (IsRequest(s, gate) ==> s.tasks[gate].pc != Abandoning(k))
  }

  lemma EofOnlyStep(s: State, a: Action, k: nat, gate: nat)
    requires Inv(s) && EofOnly(s, k, gate) && Enabled(s, a) && a != Expire(k) && a != RequestDone(gate)
    ensures EofOnly(Do(s, a), k, gate)
  {
    assert k < |s.conns| ==> ConnOk(s, k);
    if a.Abandon? {
      assert TaskOk(s, a.t);
    }
  }

  lemma {:induction false} EofOnlyRun(s: State, schedule: seq<Action>, k: nat, gate: nat)
    requires Inv(s) && EofOnly(s, k, gate) && Undisturbed(schedule, k, gate)
    ensures EofOnly(Run(s, schedule), k, gate)
    decreases |schedule|
  {
    if schedule != [] {
      var a := schedule[0];
      assert a in schedule && Undisturbed(schedule[1..], k, gate);
      if Enabled(s, a) {
        StepKeepsInv(s, a);
        EofOnlyStep(s, a, k, gate);
        EofOnlyRun(Do(s, a), schedule[1..], k, gate);
      } else {
        EofOnlyRun(s, schedule[1..], k, gate);
      }
    }
  }

  /** In every run where neither the session's own timeout nor its request's context fires, the
      forwarder returns only when no callback of the session is running, and from then on none
      ever runs, whatever happens next. */
  lemma ForwarderReturnsLast(schedule: seq<Action>, more: seq<Action>, k: nat)
    requires HasReturned(Run(START, schedule), k)
    requires Undisturbed(schedule, k, Run(START, schedule).conns[k].gate)
    ensures StaysClosed(Run(START, schedule), Run(Run(START, schedule), more), k)
  {
    var s := Run(START, schedule);
    RunKeepsInv(START, schedule);
    EofOnlyRun(START, schedule, k, s.conns[k].gate);
    assert TaskOk(s, s.conns[k].gate) && ConnOk(s, k);
    ClosedForever(s, more, k);
  }

  /** With timers it may return earlier: exactly a timer, or the end of the request's own
      context, lets a callback still run after the forwarder has returned. */
  lemma EarlyReturnNeedsTimer(s: State, k: nat)
    requires Reachable(s) && HasReturned(s, k) && CallbackRuns(s, k)
    ensures s.conns[k].cause == ByTimer || s.conns[k].cause == ByRequest
  {
    ReachableInv(s);
    var t :| 0 <= t < |s.tasks| && s.tasks[t].Handle? && s.tasks[t].step == Calling(k);
    assert TaskOk(s, t) && TaskOk(s, s.conns[k].gate) && ConnOk(s, k);
  }

  // ---------------------------------------------------------------------------------------
  // Isolation, single hop, one eof
  // ---------------------------------------------------------------------------------------

  /** A callback only ever sees replies written by the execution of its own request: the writer
      of the carrier executes the very carrier that the connection's forwarder published. */
  lemma SessionsAreIsolated(s: State, i: nat)
    requires Reachable(s) && i < |s.calls|
    ensures var k, c := s.calls[i].0, s.calls[i].1;
            && k < |s.conns| && c < |s.carriers| && s.carriers[c].kind == Outgoing
            && s.conns[k].opener < |s.carriers|
            && s.carriers[s.conns[k].opener].sender == s.conns[k].gate
            && IsRequest(s, s.carriers[c].sender)
            && s.tasks[s.carriers[c].sender].forwarded
            && s.tasks[s.carriers[c].sender].via == Some(s.conns[k].opener)
    ensures forall j :: 0 <= j < |s.calls| && j != i ==> s.calls[j].1 != s.calls[i].1
  {
    ReachableInv(s);
    assert CallOk(s, i);
    var k, c := s.calls[i].0, s.calls[i].1;
    assert ConnOk(s, k) && CarrierOk(s, c) && TaskOk(s, s.carriers[c].sender);
    var via, opener := s.tasks[s.carriers[c].sender].via.value, s.conns[k].opener;
    assert s.carriers[via].kind == Incoming && s.carriers[opener].kind == Incoming;
    assert s.carriers[via].session == s.carriers[opener].session;
    assert via == opener by {
      if via < opener { assert false; }
      if opener < via { assert false; }
    }
  }

  /** Every outgoing or eof carrier, wherever it is, targets the node its session came from. */
  lemma RepliesGoHome(s: State, c: nat, d: nat)
    requires Reachable(s) && c < |s.carriers| && d < |s.carriers|
    requires s.carriers[c].kind != Incoming && s.carriers[d].kind == Incoming
    requires s.carriers[c].session == s.carriers[d].session
    ensures s.carriers[c].target == s.carriers[d].origin
    ensures d < c && s.carriers[c].origin == s.carriers[d].target
  {
    ReachableInv(s);
    assert CarrierOk(s, c) && CarrierOk(s, d) && TaskOk(s, s.carriers[c].sender);
    var via := s.tasks[s.carriers[c].sender].via.value;
    assert s.carriers[via].kind == Incoming;
    if via < d { assert false; }
    if d < via { assert false; }
  }

  /** Forwarding is a single hop, whatever the selectors answer: an incoming carrier is only
      ever published for a request that itself came from a gateway, at most one for each, and
      is executed at most once. */
  lemma SingleHop(s: State, c: nat)
    requires Reachable(s) && c < |s.carriers| && s.carriers[c].kind == Incoming
    ensures IsRequest(s, s.carriers[c].sender) && !s.tasks[s.carriers[c].sender].forwarded
    ensures s.tasks[s.carriers[c].sender].via == None
    ensures forall d :: 0 <= d < |s.carriers| && d != c && s.carriers[d].kind == Incoming ==>
              s.carriers[d].sender != s.carriers[c].sender
    ensures forall t, u | 0 <= t < |s.tasks| && 0 <= u < |s.tasks| && s.tasks[t].Request? && s.tasks[u].Request? ::
              s.tasks[t].via == Some(c) && s.tasks[u].via == Some(c) ==> t == u
  {
    ReachableInv(s);
    assert CarrierOk(s, c) && TaskOk(s, s.carriers[c].sender);
    forall d | 0 <= d < |s.carriers| && d != c && s.carriers[d].kind == Incoming
      ensures s.carriers[d].sender != s.carriers[c].sender
    {
      assert CarrierOk(s, d);
      assert s.carriers[c].session != s.carriers[d].session;
    }
    forall t, u | 0 <= t < |s.tasks| && 0 <= u < |s.tasks| && s.tasks[t].Request? && s.tasks[u].Request?
               && s.tasks[t].via == Some(c) && s.tasks[u].via == Some(c)
      ensures t == u
    {
      assert TaskOk(s, t) && TaskOk(s, u);
    }
  }

  predicate IsElsewhere(target: NodeId, self: NodeId)
  {
    target != "" && target != self
  }

  predicate AimsElsewhere(s: State, t: nat)
    requires t < |s.tasks|
  {
    s.tasks[t].Request? && s.tasks[t].pc.Sending? ==> IsElsewhere(s.tasks[t].pc.target, s.tasks[t].node)
  }

  predicate LeavesItsNode(c: Carrier)
  {
    c.kind == Incoming ==> IsElsewhere(c.target, c.origin)
  }

  /** What is sent away goes to another node, and one with a name. */
  ghost predicate Outbound(s: State)
  {
    && (forall t: nat :: t < |s.tasks| ==> AimsElsewhere(s, t))
    && (forall c :: 0 <= c < |s.carriers| ==> LeavesItsNode(s.carriers[c]))
  }

  lemma StepKeepsOutbound(s: State, a: Action)
    requires Outbound(s) && Enabled(s, a)
    ensures Outbound(Do(s, a))
  {
    var r := Do(s, a);
    forall t: nat | t < |r.tasks| ensures AimsElsewhere(r, t) {
      AimKept(s, a, t);
    }
    forall c | 0 <= c < |r.carriers| ensures LeavesItsNode(r.carriers[c]) {
      if c < |s.carriers| {
        assert LeavesItsNode(s.carriers[c]);
      } else if a.Send? {
        assert AimsElsewhere(s, a.t);
      }
    }
  }

  lemma AimKept(s: State, a: Action, t: nat)
    requires Enabled(s, a) && t < |Do(s, a).tasks|
    requires t < |s.tasks| ==> AimsElsewhere(s, t)
    ensures AimsElsewhere(Do(s, a), t)
  {
  }

  lemma {:induction false} RunKeepsOutbound(s: State, schedule: seq<Action>)
    requires Outbound(s)
    ensures Outbound(Run(s, schedule))
    decreases |schedule|
  {
    if schedule != [] {
      if Enabled(s, schedule[0]) {
        StepKeepsOutbound(s, schedule[0]);
        RunKeepsOutbound(Do(s, schedule[0]), schedule[1..]);
      } else {
        RunKeepsOutbound(s, schedule[1..]);
      }
    }
  }

  /** No node ever forwards a request to itself, or to nobody. */
  lemma NeverForwardsToItself(s: State, c: nat)
    requires Reachable(s) && c < |s.carriers| && s.carriers[c].kind == Incoming
    ensures s.carriers[c].target != "" && s.carriers[c].target != s.carriers[c].origin
  {
    var schedule :| s == Run(START, schedule);
    RunKeepsOutbound(START, schedule);
    assert LeavesItsNode(s.carriers[c]);
  }

  /** Every execution that does not crash publishes exactly one eof, to the request's origin,
      after all its replies; until then, and if it crashes, it publishes none. */
  lemma OneEofAfterReplies(s: State, t: nat)
    requires Reachable(s) && IsRequest(s, t) && s.tasks[t].via.Some?
    ensures s.tasks[t].pc.Finished? ==>
              var e := s.tasks[t].pc.eof;
              && e < |s.carriers| && s.carriers[e].kind == Eof && s.carriers[e].sender == t
              && s.tasks[t].via.value < |s.carriers|
              && s.carriers[e].target == s.carriers[s.tasks[t].via.value].origin
              && s.carriers[e].session == s.carriers[s.tasks[t].via.value].session
              && forall c :: 0 <= c < |s.carriers| && s.carriers[c].sender == t && c != e ==>
                   s.carriers[c].kind == Outgoing && c < e
    ensures !s.tasks[t].pc.Finished? ==>
              forall c :: 0 <= c < |s.carriers| && s.carriers[c].sender == t ==> s.carriers[c].kind == Outgoing
  {
    ReachableInv(s);
    assert TaskOk(s, t);
    forall c | 0 <= c < |s.carriers| && s.carriers[c].sender == t
      ensures CarrierOk(s, c)
    {
    }
  }

  /** The handling of a session's carriers is serialised: at most one of them is past the
      connection's lock at any time. */
  lemma CallbacksAreSerialised(s: State, t: nat, u: nat)
    requires Reachable(s) && IsHandle(s, t) && IsHandle(s, u)
    requires s.tasks[t].step.Holds() && s.tasks[u].step.Holds() && s.tasks[t].step.conn == s.tasks[u].step.conn
    ensures t == u
  {
    ReachableInv(s);
    assert TaskOk(s, t) && TaskOk(s, u);
  }

  // ---------------------------------------------------------------------------------------
  // Runs, put together
  // ---------------------------------------------------------------------------------------

  lemma {:induction false} RunConcat(s: State, a: seq<Action>, b: seq<Action>)
    ensures Run(s, a + b) == Run(Run(s, a), b)
    decreases |a|
  {
    if a == [] {
      assert a + b == b;
    } else {
      assert (a + b)[1..] == a[1..] + b;
      RunConcat(if Enabled(s, a[0]) then Do(s, a[0]) else s, a[1..], b);
    }
  }

  lemma ReachStep(s: State, a: Action)
    requires Reachable(s) && Enabled(s, a)
    ensures Reachable(Do(s, a))
  {
    var schedule :| s == Run(START, schedule);
    RunConcat(START, schedule, [a]);
    assert [a][1..] == [];
  }
}
