/** The invariant of the remote-execution machine, kept by every step. */
module BridgeInvariant {
  import opened Wrappers
  import opened Bridge

  /** What is true of each task. */
  ghost predicate TaskOk(s: State, t: nat)
    requires t < |s.tasks|
  {
    var task := s.tasks[t];
    if task.Request? then
      && task.forwarded == task.via.Some?
      && (task.via.Some? ==>
            && task.via.value < |s.carriers| && task.via.value < |s.status|
            && s.carriers[task.via.value].kind == Incoming
            && s.carriers[task.via.value].target == task.node
            && s.status[task.via.value] == Taken(t)
            && (task.pc.Deciding? || task.pc.Serving? || task.pc.Closing? || task.pc.Finished? || task.pc.Crashed?))
      && (task.pc.Closing? || task.pc.Finished? ==> task.via.Some?)
      && (task.pc.Sent? ==> SentBy(s, t, task.pc.carrier))
      && (task.pc.Waiting? || task.pc.Abandoning? || task.pc.Returned? ==>
            task.pc.conn < |s.conns| && s.conns[task.pc.conn].gate == t)
      && (task.pc.Returned? ==> s.conns[task.pc.conn].Done())
      && (task.pc.Finished? ==>
            && task.pc.eof < |s.carriers|
            && s.carriers[task.pc.eof].kind == Eof && s.carriers[task.pc.eof].sender == t)
    else
      && task.carrier < |s.carriers| && task.carrier < |s.status|
      && s.carriers[task.carrier].kind != Incoming
      && s.carriers[task.carrier].target == task.node
      && s.status[task.carrier] == Taken(t)
      && (task.step.HasConn() ==>
            && task.step.conn < |s.conns|
            && s.conns[task.step.conn].session == s.carriers[task.carrier].session
            && s.conns[task.step.conn].node == task.node)
      && (task.step.Holds() ==> s.conns[task.step.conn].lock == Some(t))
      && (task.step.Calling? ==> s.carriers[task.carrier].kind == Outgoing && !s.conns[task.step.conn].closed)
      && (task.step.Deleting? || task.step.Cancelling? ==> s.carriers[task.carrier].kind == Eof)
      && (task.step.Cancelling? ==> (task.node, s.carriers[task.carrier].session) !in s.inProgress)
      && (task.step.Lookup? || task.step.Acquire? || task.step.Check? ==> forall k :: (k, task.carrier) !in s.calls)
  }

  ghost predicate SentBy(s: State, t: nat, c: nat)
    requires t < |s.tasks|
  {
    c < |s.carriers| && s.carriers[c].kind == Incoming && s.carriers[c].sender == t && s.carriers[c].origin == s.tasks[t].node
  }

  /** What is true of each published carrier. */
  ghost predicate CarrierOk(s: State, c: nat)
    requires c < |s.carriers| && c < |s.status|
  {
    var carrier := s.carriers[c];
    && carrier.sender < |s.tasks|
    && var task := s.tasks[carrier.sender];
    && task.Request?
    && carrier.origin == task.node
    && (s.status[c].Taken? ==> s.status[c].task < |s.tasks|)
    && if carrier.kind == Incoming then
         && !task.forwarded
         && match task.pc
            case Sent(c') => c' == c
            case Refused(c') => c' == c
            case Waiting(k) => k < |s.conns| && s.conns[k].session == carrier.session
            case Abandoning(k) => k < |s.conns| && s.conns[k].session == carrier.session
            case Returned(k) => k < |s.conns| && s.conns[k].session == carrier.session
            case _ => false
       else
         && task.via.Some? && task.via.value < c
         && s.carriers[task.via.value].session == carrier.session
         && s.carriers[task.via.value].origin == carrier.target
         && (carrier.kind == Eof ==> task.pc == Finished(c))
         && (carrier.kind == Outgoing ==> match task.pc
               case Serving => true
               case Closing => true
               case Crashed => true
               case Finished(eof) => c < eof
               case _ => false)
  }

  /** What is true of each sender connection. */
  ghost predicate ConnOk(s: State, k: nat)
    requires k < |s.conns|
  {
    var conn := s.conns[k];
    && conn.gate < |s.tasks|
    && s.tasks[conn.gate].Request?
    && s.tasks[conn.gate].node == conn.node
    && !s.tasks[conn.gate].forwarded
    && (s.tasks[conn.gate].pc == Waiting(k) || s.tasks[conn.gate].pc == Abandoning(k) || s.tasks[conn.gate].pc == Returned(k))
    && (conn.lock.Some? ==>
          && conn.lock.value < |s.tasks|
          && s.tasks[conn.lock.value].Handle?
          && s.tasks[conn.lock.value].step.Holds()
          && s.tasks[conn.lock.value].step.conn == k)
    && (conn.closed ==> conn.Done() && (conn.node, conn.session) !in s.inProgress)
    && (conn.cause == ByEof ==> conn.closed)
    && SentBy(s, conn.gate, conn.opener)
    && s.carriers[conn.opener].session == conn.session
  }

  /** Incoming carriers are the only first use of a session id. */
  ghost predicate SessionsUnique(s: State)
  {
    forall c, d | 0 <= c < d < |s.carriers| && s.carriers[c].kind == Incoming && s.carriers[d].kind == Incoming ::
      s.carriers[c].session != s.carriers[d].session
  }

  ghost predicate InProgressOk(s: State)
  {
    forall key :: key in s.inProgress ==>
      && s.inProgress[key] < |s.conns|
      && s.conns[s.inProgress[key]].node == key.0
      && s.conns[s.inProgress[key]].session == key.1
  }

  ghost predicate CallOk(s: State, i: nat)
    requires i < |s.calls|
  {
    var k, c := s.calls[i].0, s.calls[i].1;
    && k < |s.conns| && c < |s.carriers|
    && c < |s.status| && s.status[c].Taken?
    && s.carriers[c].kind == Outgoing
    && s.carriers[c].session == s.conns[k].session
    && s.carriers[c].target == s.conns[k].node
    && forall j :: 0 <= j < |s.calls| && j != i ==> s.calls[j].1 != c
  }

  ghost predicate Inv(s: State)
  {
    && |s.status| == |s.carriers|
    && (forall t :: 0 <= t < |s.tasks| ==> TaskOk(s, t))
    && (forall c :: 0 <= c < |s.carriers| ==> CarrierOk(s, c))
    && (forall k :: 0 <= k < |s.conns| ==> ConnOk(s, k))
    && SessionsUnique(s)
    && InProgressOk(s)
    && (forall i :: 0 <= i < |s.calls| ==> CallOk(s, i))
  }

  // ---------------------------------------------------------------------------------------
  // Kinds of steps
  // ---------------------------------------------------------------------------------------

  /** The forwarder starts a session. */
  predicate Opening(a: Action)
  {
    a.Decide? || a.Send? || a.Register?
  }

  /** The forwarder's select. */
  predicate Selecting(a: Action)
  {
    a.Resume? || a.RequestDone? || a.Abandon?
  }

  /** Execution at the target. */
  predicate Executing(a: Action)
  {
    a.Write? || a.EndChain? || a.Close? || a.Crash?
  }

  /** A gateway, the network, a timer. */
  predicate Outside(a: Action)
  {
    a.Arrive? || a.Deliver? || a.Lose? || a.Expire?
  }

  /** The handling of an outgoing or eof carrier. */
  predicate Handling(a: Action)
  {
    a.Find? || a.Lock? || a.Test? || a.CallBack? || a.Delete? || a.CancelConn? || a.Unlock?
  }

  /** Handling a carrier changes no other task, and no carrier. */
  lemma HandlingFrame(s: State, a: Action)
    requires Enabled(s, a) && Handling(a)
    ensures var r := Do(s, a);
            && r.carriers == s.carriers && r.status == s.status
            && |r.tasks| == |s.tasks| && IsHandle(s, a.t) && r.tasks[a.t].Handle?
            && (forall t :: 0 <= t < |s.tasks| && t != a.t ==> r.tasks[t] == s.tasks[t])
  {
  }

  /** It opens no connection, and leaves alone whose the connections are. */
  lemma HandlingKeepsWhose(s: State, a: Action, k: nat)
    requires Enabled(s, a) && Handling(a) && k < |s.conns|
    ensures var r := Do(s, a);
            && |r.conns| == |s.conns|
            && r.conns[k].session == s.conns[k].session && r.conns[k].node == s.conns[k].node
            && r.conns[k].opener == s.conns[k].opener && r.conns[k].gate == s.conns[k].gate
  {
  }

  // ---------------------------------------------------------------------------------------
  // Each step keeps what is true of each task
  // ---------------------------------------------------------------------------------------

  lemma DecidingKeepsTask(s: State, a: Action, t: nat)
    requires Inv(s) && Enabled(s, a) && a.Decide? && t < |Do(s, a).tasks|
    ensures TaskOk(Do(s, a), t)
  {
    assert TaskOk(s, a.t) && (t < |s.tasks| ==> TaskOk(s, t));
  }

  lemma SendingKeepsTask(s: State, a: Action, t: nat)
    requires Inv(s) && Enabled(s, a) && a.Send? && t < |Do(s, a).tasks|
    ensures TaskOk(Do(s, a), t)
  {
    assert TaskOk(s, a.t) && (t < |s.tasks| ==> TaskOk(s, t));
  }

  lemma RegisteringKeepsTask(s: State, a: Action, t: nat)
    requires Inv(s) && Enabled(s, a) && a.Register? && t < |Do(s, a).tasks|
    ensures TaskOk(Do(s, a), t)
  {
    assert TaskOk(s, a.t) && (t < |s.tasks| ==> TaskOk(s, t));
    assert s.tasks[t].Handle? && s.tasks[t].step.HasConn() ==> ConnOk(s, s.tasks[t].step.conn);
  }

  lemma SelectingKeepsTask(s: State, a: Action, t: nat)
    requires Inv(s) && Enabled(s, a) && Selecting(a) && t < |Do(s, a).tasks|
    ensures TaskOk(Do(s, a), t)
  {
    assert TaskOk(s, a.t) && (t < |s.tasks| ==> TaskOk(s, t));
  }

  lemma ExecutingKeepsTask(s: State, a: Action, t: nat)
    requires Inv(s) && Enabled(s, a) && Executing(a) && t < |Do(s, a).tasks|
    ensures TaskOk(Do(s, a), t)
  {
    assert TaskOk(s, a.t) && (t < |s.tasks| ==> TaskOk(s, t));
  }

  lemma OutsideKeepsTask(s: State, a: Action, t: nat)
    requires Inv(s) && Enabled(s, a) && Outside(a) && t < |Do(s, a).tasks|
    ensures TaskOk(Do(s, a), t)
  {
    assert t < |s.tasks| ==> TaskOk(s, t);
    forall i | 0 <= i < |s.calls| && a.Deliver? ensures s.calls[i].1 != a.c {
      assert CallOk(s, i);
    }
  }

  lemma FindingKeepsTask(s: State, a: Action, t: nat)
    requires Inv(s) && Enabled(s, a) && a.Find? && t < |Do(s, a).tasks|
    ensures TaskOk(Do(s, a), t)
  {
    assert TaskOk(s, a.t) && (t < |s.tasks| ==> TaskOk(s, t));
  }

  lemma LockingKeepsTask(s: State, a: Action, t: nat)
    requires Inv(s) && Enabled(s, a) && (a.Lock? || a.Unlock?) && t < |Do(s, a).tasks|
    ensures TaskOk(Do(s, a), t)
  {
    assert TaskOk(s, a.t) && (t < |s.tasks| ==> TaskOk(s, t));
  }

  lemma TestingKeepsTask(s: State, a: Action, t: nat)
    requires Inv(s) && Enabled(s, a) && a.Test? && t < |Do(s, a).tasks|
    ensures TaskOk(Do(s, a), t)
  {
    assert TaskOk(s, a.t) && TaskOk(s, t);
    if t == a.t {
      assert ConnOk(s, s.tasks[t].step.conn);
    } else {
      TestingKeepsOthers(s, a, t);
    }
  }

  lemma TestingKeepsOthers(s: State, a: Action, t: nat)
    requires Enabled(s, a) && a.Test? && t < |s.tasks| && t != a.t && TaskOk(s, t) && TaskOk(s, a.t)
    ensures t < |Do(s, a).tasks| && TaskOk(Do(s, a), t)
  {
    var r := Do(s, a);
    assert r.tasks[t] == s.tasks[t] && r.conns == s.conns && r.carriers == s.carriers && r.status == s.status;
  }

  lemma ActingKeepsTask(s: State, a: Action, t: nat)
    requires Inv(s) && Enabled(s, a) && (a.CallBack? || a.Delete?) && t < |Do(s, a).tasks|
    ensures TaskOk(Do(s, a), t)
  {
    assert TaskOk(s, a.t) && (t < |s.tasks| ==> TaskOk(s, t));
  }

  lemma CancellingKeepsTask(s: State, a: Action, t: nat)
    requires Inv(s) && Enabled(s, a) && a.CancelConn? && t < |Do(s, a).tasks|
    ensures TaskOk(Do(s, a), t)
  {
    assert TaskOk(s, a.t) && (t < |s.tasks| ==> TaskOk(s, t));
  }

  lemma TaskKept(s: State, a: Action, t: nat)
    requires Inv(s) && Enabled(s, a) && t < |Do(s, a).tasks|
    ensures TaskOk(Do(s, a), t)
  {
    if a.Decide? {
      DecidingKeepsTask(s, a, t);
    } else if a.Send? {
      SendingKeepsTask(s, a, t);
    } else if a.Register? {
      RegisteringKeepsTask(s, a, t);
    } else if Selecting(a) {
      SelectingKeepsTask(s, a, t);
    } else if Executing(a) {
      ExecutingKeepsTask(s, a, t);
    } else if Outside(a) {
      OutsideKeepsTask(s, a, t);
    } else if a.Find? {
      FindingKeepsTask(s, a, t);
    } else if a.Lock? || a.Unlock? {
      LockingKeepsTask(s, a, t);
    } else if a.Test? {
      TestingKeepsTask(s, a, t);
    } else if a.CallBack? || a.Delete? {
      ActingKeepsTask(s, a, t);
    } else {
      CancellingKeepsTask(s, a, t);
    }
  }

  // ---------------------------------------------------------------------------------------
  // Each step keeps what is true of each carrier
  // ---------------------------------------------------------------------------------------

  lemma OpeningKeepsCarrier(s: State, a: Action, c: nat)
    requires Inv(s) && Enabled(s, a) && Opening(a) && c < |Do(s, a).carriers| && |Do(s, a).status| == |Do(s, a).carriers|
    ensures CarrierOk(Do(s, a), c)
  {
    assert TaskOk(s, a.t) && (c < |s.carriers| ==> CarrierOk(s, c));
  }

  lemma SelectingKeepsCarrier(s: State, a: Action, c: nat)
    requires Inv(s) && Enabled(s, a) && Selecting(a) && c < |Do(s, a).carriers| && |Do(s, a).status| == |Do(s, a).carriers|
    ensures CarrierOk(Do(s, a), c)
  {
    assert TaskOk(s, a.t) && (c < |s.carriers| ==> CarrierOk(s, c));
  }

  lemma ExecutingKeepsCarrier(s: State, a: Action, c: nat)
    requires Inv(s) && Enabled(s, a) && Executing(a) && c < |Do(s, a).carriers| && |Do(s, a).status| == |Do(s, a).carriers|
    ensures CarrierOk(Do(s, a), c)
  {
    assert TaskOk(s, a.t) && (c < |s.carriers| ==> CarrierOk(s, c));
  }

  lemma OutsideKeepsCarrier(s: State, a: Action, c: nat)
    requires Inv(s) && Enabled(s, a) && Outside(a) && c < |Do(s, a).carriers| && |Do(s, a).status| == |Do(s, a).carriers|
    ensures CarrierOk(Do(s, a), c)
  {
    assert c < |s.carriers| ==> CarrierOk(s, c);
  }

  lemma HandlingKeepsCarrier(s: State, a: Action, c: nat)
    requires Inv(s) && Enabled(s, a) && Handling(a) && c < |Do(s, a).carriers| && |Do(s, a).status| == |Do(s, a).carriers|
    ensures CarrierOk(Do(s, a), c)
  {
    HandlingFrame(s, a);
    assert CarrierOk(s, c);
  }

  lemma CarrierKept(s: State, a: Action, c: nat)
    requires Inv(s) && Enabled(s, a) && c < |Do(s, a).carriers| && |Do(s, a).status| == |Do(s, a).carriers|
    ensures CarrierOk(Do(s, a), c)
  {
    if Opening(a) {
      OpeningKeepsCarrier(s, a, c);
    } else if Selecting(a) {
      SelectingKeepsCarrier(s, a, c);
    } else if Executing(a) {
      ExecutingKeepsCarrier(s, a, c);
    } else if Outside(a) {
      OutsideKeepsCarrier(s, a, c);
    } else {
      HandlingKeepsCarrier(s, a, c);
    }
  }

  // ---------------------------------------------------------------------------------------
  // Each step keeps what is true of each connection
  // ---------------------------------------------------------------------------------------

  lemma OpeningKeepsConn(s: State, a: Action, k: nat)
    requires Inv(s) && Enabled(s, a) && Opening(a) && k < |Do(s, a).conns|
    ensures ConnOk(Do(s, a), k)
  {
    assert TaskOk(s, a.t) && (k < |s.conns| ==> ConnOk(s, k));
  }

  lemma SelectingKeepsConn(s: State, a: Action, k: nat)
    requires Inv(s) && Enabled(s, a) && Selecting(a) && k < |Do(s, a).conns|
    ensures ConnOk(Do(s, a), k)
  {
    assert TaskOk(s, a.t) && (k < |s.conns| ==> ConnOk(s, k));
  }

  lemma ExecutingKeepsConn(s: State, a: Action, k: nat)
    requires Inv(s) && Enabled(s, a) && Executing(a) && k < |Do(s, a).conns|
    ensures ConnOk(Do(s, a), k)
  {
    assert TaskOk(s, a.t) && (k < |s.conns| ==> ConnOk(s, k));
  }

  lemma OutsideKeepsConn(s: State, a: Action, k: nat)
    requires Inv(s) && Enabled(s, a) && Outside(a) && k < |Do(s, a).conns|
    ensures ConnOk(Do(s, a), k)
  {
    assert k < |s.conns| ==> ConnOk(s, k);
  }

  lemma LockingKeepsConn(s: State, a: Action, k: nat)
    requires Inv(s) && Enabled(s, a) && (a.Find? || a.Lock? || a.Unlock?) && k < |Do(s, a).conns|
    ensures ConnOk(Do(s, a), k)
  {
    assert TaskOk(s, a.t) && (k < |s.conns| ==> ConnOk(s, k));
  }

  lemma TestingKeepsConn(s: State, a: Action, k: nat)
    requires Inv(s) && Enabled(s, a) && (a.Test? || a.CallBack?) && k < |Do(s, a).conns|
    ensures ConnOk(Do(s, a), k)
  {
    HandlingFrame(s, a);
    TestingHolds(s, a);
    assert ConnOk(s, k);
  }

  /** The lock is kept. */
  lemma TestingHolds(s: State, a: Action)
    requires Enabled(s, a) && (a.Test? || a.CallBack?)
    ensures var r := Do(s, a);
            && r.conns == s.conns && r.inProgress == s.inProgress && a.t < |s.tasks| == |r.tasks|
            && s.tasks[a.t].Handle? && r.tasks[a.t].Handle?
            && r.tasks[a.t].step.Holds() && r.tasks[a.t].step.conn == s.tasks[a.t].step.conn
  {
  }

  lemma EndingKeepsConn(s: State, a: Action, k: nat)
    requires Inv(s) && Enabled(s, a) && (a.Delete? || a.CancelConn?) && k < |Do(s, a).conns|
    ensures ConnOk(Do(s, a), k)
  {
    assert TaskOk(s, a.t) && (k < |s.conns| ==> ConnOk(s, k));
  }

  lemma ConnKept(s: State, a: Action, k: nat)
    requires Inv(s) && Enabled(s, a) && k < |Do(s, a).conns|
    ensures ConnOk(Do(s, a), k)
  {
    if Opening(a) {
      OpeningKeepsConn(s, a, k);
    } else if Selecting(a) {
      SelectingKeepsConn(s, a, k);
    } else if Executing(a) {
      ExecutingKeepsConn(s, a, k);
    } else if Outside(a) {
      OutsideKeepsConn(s, a, k);
    } else if a.Find? || a.Lock? || a.Unlock? {
      LockingKeepsConn(s, a, k);
    } else if a.Test? || a.CallBack? {
      TestingKeepsConn(s, a, k);
    } else {
      EndingKeepsConn(s, a, k);
    }
  }

  // ---------------------------------------------------------------------------------------
  // The rest, and the whole
  // ---------------------------------------------------------------------------------------

  lemma CallKept(s: State, a: Action, i: nat)
    requires Inv(s) && Enabled(s, a) && i < |Do(s, a).calls|
    ensures CallOk(Do(s, a), i)
  {
    if a.Test? {
      TestingKeepsCall(s, a, i);
    } else {
      assert CallOk(s, i);
    }
  }

  lemma TestingKeepsCall(s: State, a: Action, i: nat)
    requires Inv(s) && Enabled(s, a) && a.Test? && i < |Do(s, a).calls|
    ensures CallOk(Do(s, a), i)
  {
    assert TaskOk(s, a.t) && (i < |s.calls| ==> CallOk(s, i));
  }

  lemma SessionsKept(s: State, a: Action)
    requires Inv(s) && Enabled(s, a)
    ensures SessionsUnique(Do(s, a))
  {
  }

  lemma InProgressKept(s: State, a: Action)
    requires Inv(s) && Enabled(s, a)
    ensures InProgressOk(Do(s, a))
  {
    if a.Register? {
      RegisteringKeepsInProgress(s, a);
    } else {
      NothingNewInProgress(s, a);
    }
  }

  lemma RegisteringKeepsInProgress(s: State, a: Action)
    requires Inv(s) && Enabled(s, a) && a.Register?
    ensures InProgressOk(Do(s, a))
  {
  }

  lemma NothingNewInProgress(s: State, a: Action)
    requires Enabled(s, a) && !a.Register?
    ensures var r := Do(s, a);
            && |r.conns| == |s.conns|
            && (forall key :: key in r.inProgress ==> key in s.inProgress && r.inProgress[key] == s.inProgress[key])
            && (forall k :: 0 <= k < |s.conns| ==> r.conns[k].node == s.conns[k].node && r.conns[k].session == s.conns[k].session)
  {
  }

  /** Every step keeps the invariant. */
  lemma StepKeepsInv(s: State, a: Action)
    requires Inv(s) && Enabled(s, a)
    ensures Inv(Do(s, a))
  {
    var r := Do(s, a);
    assert |r.status| == |r.carriers|;
    forall t | 0 <= t < |r.tasks| ensures TaskOk(r, t) { TaskKept(s, a, t); }
    forall c | 0 <= c < |r.carriers| ensures CarrierOk(r, c) { CarrierKept(s, a, c); }
    forall k | 0 <= k < |r.conns| ensures ConnOk(r, k) { ConnKept(s, a, k); }
    forall i | 0 <= i < |r.calls| ensures CallOk(r, i) { CallKept(s, a, i); }
    SessionsKept(s, a);
    InProgressKept(s, a);
  }

  /** Every run keeps the invariant, whatever the interleaving. */
  lemma {:induction false} RunKeepsInv(s: State, schedule: seq<Action>)
    requires Inv(s)
    ensures Inv(Run(s, schedule))
    decreases |schedule|
  {
    if schedule != [] {
      if Enabled(s, schedule[0]) {
        StepKeepsInv(s, schedule[0]);
        RunKeepsInv(Do(s, schedule[0]), schedule[1..]);
      } else {
        RunKeepsInv(s, schedule[1..]);
      }
    }
  }
}
