/** Remote execution between edge servers (kit/bridge_south.go) as a step machine.

    Every goroutine of every node is a task; every action below is one atomic step of one task,
    of the network, or of a timer, and any interleaving of them is a run. A carrier, once
    published, is delivered or lost, in any order, and is handled in its own task. */
module Bridge {
  import opened Forwarding
  import opened Wrappers

  type SessionId = nat

  datatype Kind = Incoming | Outgoing | Eof

  /** A carrier, with the task that published it. */
  datatype Carrier = Carrier(kind: Kind, session: SessionId, origin: NodeId, target: NodeId, sender: nat)

  /** What became of a published carrier. A failed publish is one whose carrier is lost. */
  datatype Status = InFlight | Lost | Taken(task: nat)

  /** What ended a sender connection's context first. */
  datatype Cause = Open | ByEof | ByTimer | ByRequest

  /** A sender connection, opened for the incoming carrier `opener`. `gate` is the task whose request
      waits on it and whose client its callback writes to; `closed` records that an eof has been
      handled on it. */
  datatype Conn = Conn(node: NodeId, session: SessionId, opener: nat, gate: nat, cause: Cause, lock: Option<nat>, closed: bool)
  {
    predicate Done() { cause != Open }

    function Cancel(why: Cause): Conn
    {
      if cause == Open then this.(cause := why) else this
    }
  }

  /** Where a request's handler chain stands. */
  datatype RequestPc =
    | Deciding                 // the forwarder is next
    | Sending(target: NodeId)  // the forwarder is publishing the incoming carrier
    | Sent(carrier: nat)       // published; the connection is not registered yet
    | Refused(carrier: nat)    // publishing failed; the forwarder has returned
    | Waiting(conn: nat)       // in the forwarder's select
    | Abandoning(conn: nat)    // the request's own context ended; the connection is next
    | Returned(conn: nat)      // the forwarder has returned
    | Serving                  // the handlers behind the forwarder are running
    | Closing                  // the chain has ended; the eof is next
    | Finished(eof: nat)       // the eof has been published
    | Ended                    // a request of this node's own gateway is over
    | Crashed

  /** Where the handling of an outgoing or eof carrier stands. */
  datatype HandlePc =
    | Lookup
    | Acquire(conn: nat)
    | Check(conn: nat)
    | Calling(conn: nat)
    | Deleting(conn: nat)
    | Cancelling(conn: nat)
    | Unlocking(conn: nat)
    | Over
  {
    predicate Holds()
    {
      Check? || Calling? || Deleting? || Cancelling? || Unlocking?
    }

    predicate HasConn()
    {
      Acquire? || Holds()
    }
  }

  datatype Task =
    | Request(node: NodeId, forwarded: bool, via: Option<nat>, pc: RequestPc)
    | Handle(node: NodeId, carrier: nat, step: HandlePc)

  /** `calls` lists the callbacks started so far: on which connection, for which carrier. */
  datatype State = State(
    tasks: seq<Task>,
    carriers: seq<Carrier>,
    status: seq<Status>,
    conns: seq<Conn>,
    inProgress: map<(NodeId, SessionId), nat>,
    calls: seq<(nat, nat)>)

  const START: State := State([], [], [], [], map[], [])

  datatype Action =
    // gateway and forwarder
    | Arrive(node: NodeId)
    | Decide(t: nat, sel: Selection)
    | Send(t: nat, session: SessionId, fate: Status, err: bool)
    | Register(t: nat)
    | Resume(t: nat)
    | RequestDone(t: nat)
    | Abandon(t: nat)
    // execution
    | Write(t: nat, fate: Status)
    | EndChain(t: nat)
    | Close(t: nat, fate: Status)
    | Crash(t: nat)
    // network and timer
    | Deliver(c: nat)
    | Lose(c: nat)
    | Expire(k: nat)
    // handling of an outgoing or eof carrier
    | Find(t: nat)
    | Lock(t: nat)
    | Test(t: nat)
    | CallBack(t: nat)
    | Delete(t: nat)
    | CancelConn(t: nat)
    | Unlock(t: nat)

  predicate IsRequest(s: State, t: nat)
  {
    t < |s.tasks| && s.tasks[t].Request?
  }

  predicate IsHandle(s: State, t: nat)
  {
    && t < |s.tasks| && s.tasks[t].Handle?
    && s.tasks[t].carrier < |s.carriers|
    && (s.tasks[t].step.HasConn() ==> s.tasks[t].step.conn < |s.conns|)
  }

  /** Session ids are fresh: no carrier was ever published under this one. */
  predicate FreshSession(s: State, session: SessionId)
  {
    forall c :: 0 <= c < |s.carriers| ==> s.carriers[c].session != session
  }

  predicate Enabled(s: State, a: Action)
  {
    && |s.status| == |s.carriers|
    && match a
    case Arrive(_) => true
    case Decide(t, _) => IsRequest(s, t) && s.tasks[t].pc.Deciding?
    case Send(t, session, fate, _) => IsRequest(s, t) && s.tasks[t].pc.Sending? && FreshSession(s, session) && !fate.Taken?
    case Register(t) => IsRequest(s, t) && s.tasks[t].pc.Sent? && s.tasks[t].pc.carrier < |s.carriers|
    case Resume(t) => IsRequest(s, t) && s.tasks[t].pc.Waiting? && s.tasks[t].pc.conn < |s.conns|
                      && s.conns[s.tasks[t].pc.conn].Done()
    case RequestDone(t) => IsRequest(s, t) && s.tasks[t].pc.Waiting?
    case Abandon(t) => IsRequest(s, t) && s.tasks[t].pc.Abandoning? && s.tasks[t].pc.conn < |s.conns|
    case Write(t, fate) => IsRequest(s, t) && s.tasks[t].pc.Serving? && !fate.Taken?
                           && s.tasks[t].via.Some? && s.tasks[t].via.value < |s.carriers|
    case EndChain(t) => IsRequest(s, t) && (s.tasks[t].pc.Serving? || (s.tasks[t].pc.Deciding? && s.tasks[t].via.Some?))
    case Close(t, fate) => IsRequest(s, t) && s.tasks[t].pc.Closing? && !fate.Taken?
                           && s.tasks[t].via.Some? && s.tasks[t].via.value < |s.carriers|
    case Crash(t) => IsRequest(s, t) && s.tasks[t].pc.Serving?
    case Deliver(c) => c < |s.carriers| && s.status[c].InFlight?
    case Lose(c) => c < |s.carriers| && s.status[c].InFlight?
    case Expire(k) => k < |s.conns|
    case Find(t) => IsHandle(s, t) && s.tasks[t].step.Lookup?
    case Lock(t) => IsHandle(s, t) && s.tasks[t].step.Acquire? && s.conns[s.tasks[t].step.conn].lock.None?
    case Test(t) => IsHandle(s, t) && s.tasks[t].step.Check?
    case CallBack(t) => IsHandle(s, t) && s.tasks[t].step.Calling?
    case Delete(t) => IsHandle(s, t) && s.tasks[t].step.Deleting?
    case CancelConn(t) => IsHandle(s, t) && s.tasks[t].step.Cancelling?
    case Unlock(t) => IsHandle(s, t) && s.tasks[t].step.Unlocking?
  }

  function SetPc(s: State, t: nat, pc: RequestPc): State
    requires IsRequest(s, t)
  {
    s.(tasks := s.tasks[t := s.tasks[t].(pc := pc)])
  }

  function SetStep(s: State, t: nat, step: HandlePc): State
    requires IsHandle(s, t)
  {
    s.(tasks := s.tasks[t := s.tasks[t].(step := step)])
  }

  function Publish(s: State, c: Carrier, fate: Status): State
  {
    s.(carriers := s.carriers + [c], status := s.status + [fate])
  }

  /** One atomic step. */
  function Do(s: State, a: Action): State
    requires Enabled(s, a)
  {
    match a
    case Arrive(node) =>
      s.(tasks := s.tasks + [Request(node, false, None, Deciding)])

    case Decide(t, sel) =>
      SetPc(s, t, if Forwards(s.tasks[t].forwarded, s.tasks[t].node, sel) then Sending(sel.id) else Serving)

    case Send(t, session, fate, err) =>
      var task := s.tasks[t];
      var s1 := Publish(s, Carrier(Incoming, session, task.node, task.pc.target, t), fate);
      SetPc(s1.(inProgress := if err then s.inProgress - {(task.node, session)} else s.inProgress), t,
            if err then Refused(|s.carriers|) else Sent(|s.carriers|))

    case Register(t) =>
      var task := s.tasks[t];
      var session := s.carriers[task.pc.carrier].session;
      SetPc(s.(conns := s.conns + [Conn(task.node, session, task.pc.carrier, t, Open, None, false)],
               inProgress := s.inProgress[(task.node, session) := |s.conns|]),
            t, Waiting(|s.conns|))

    case Resume(t) =>
      SetPc(s, t, Returned(s.tasks[t].pc.conn))

    case RequestDone(t) =>
      SetPc(s, t, Abandoning(s.tasks[t].pc.conn))

    case Abandon(t) =>
      var k := s.tasks[t].pc.conn;
      SetPc(s.(conns := s.conns[k := s.conns[k].Cancel(ByRequest)]), t, Returned(k))

    case Write(t, fate) =>
      var via := s.carriers[s.tasks[t].via.value];
      Publish(s, Carrier(Outgoing, via.session, s.tasks[t].node, via.origin, t), fate)

    case EndChain(t) =>
      SetPc(s, t, if s.tasks[t].via.Some? then Closing else Ended)

    case Close(t, fate) =>
      var via := s.carriers[s.tasks[t].via.value];
      SetPc(Publish(s, Carrier(Eof, via.session, s.tasks[t].node, via.origin, t), fate), t, Finished(|s.carriers|))

    case Crash(t) =>
      SetPc(s, t, Crashed)

    case Deliver(c) =>
      var carrier := s.carriers[c];
      s.(status := s.status[c := Taken(|s.tasks|)],
         tasks := s.tasks + [if carrier.kind == Incoming then Request(carrier.target, true, Some(c), Deciding)
                             else Handle(carrier.target, c, Lookup)])

    case Lose(c) =>
      s.(status := s.status[c := Lost])

    case Expire(k) =>
      s.(conns := s.conns[k := s.conns[k].Cancel(ByTimer)])

    case Find(t) =>
      var key := (s.tasks[t].node, s.carriers[s.tasks[t].carrier].session);
      SetStep(s, t, if key in s.inProgress then Acquire(s.inProgress[key]) else Over)

    case Lock(t) =>
      var k := s.tasks[t].step.conn;
      SetStep(s.(conns := s.conns[k := s.conns[k].(lock := Some(t))]), t, Check(k))

    case Test(t) =>
      var k, c := s.tasks[t].step.conn, s.tasks[t].carrier;
      if s.conns[k].Done() then SetStep(s, t, Unlocking(k))
      else if s.carriers[c].kind == Outgoing then SetStep(s.(calls := s.calls + [(k, c)]), t, Calling(k))
      else SetStep(s, t, Deleting(k))

    case CallBack(t) =>
      SetStep(s, t, Unlocking(s.tasks[t].step.conn))

    case Delete(t) =>
      var k := s.tasks[t].step.conn;
      SetStep(s.(inProgress := s.inProgress - {(s.tasks[t].node, s.conns[k].session)}), t, Cancelling(k))

    case CancelConn(t) =>
      var k := s.tasks[t].step.conn;
      SetStep(s.(conns := s.conns[k := s.conns[k].Cancel(ByEof).(closed := true)]), t, Unlocking(k))

    case Unlock(t) =>
      var k := s.tasks[t].step.conn;
      SetStep(s.(conns := s.conns[k := s.conns[k].(lock := None)]), t, Over)
  }

  /** A run: the actions of a schedule in order, those not possible at their turn skipped. */
  function Run(s: State, schedule: seq<Action>): (r: State)
    decreases |schedule|
  {
    if schedule == [] then s
    else Run(if Enabled(s, schedule[0]) then Do(s, schedule[0]) else s, schedule[1..])
  }
}
