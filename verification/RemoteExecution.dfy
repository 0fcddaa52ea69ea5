/** Where a contract's handlers run: registration composes the chain (kit/edge.go,
    kit/contract.go), the forwarder in front of it decides between this node and another one
    (kit/bridge_south.go), and the chain runs as kit/ctx.go says. */
module RemoteExecution {
  import opened Forwarding
  import opened HandlerChain
  import opened HandlerChainLaws

  /** A contract as registered: a plain one, or one with handlers put in front of it. */
  datatype Contract =
    | Plain(id: string, selective: bool, own: seq<Part>)
    | Wrapped(inner: Contract, h: seq<Part>)
  {
    function Id(): string
    {
      if Plain? then id else inner.Id()
    }

    /** Whether the contract has an edge selector; a wrapper inherits it. */
    predicate HasSelector()
    {
      if Plain? then selective else inner.HasSelector()
    }

    function Handlers(): seq<Part>
    {
      if Plain? then own else h + inner.Handlers()
    }

    function Base(): Contract
    {
      if Plain? then this else inner.Base()
    }
  }

  /** One element of a handler list: the coordinator's forwarder or a user's handler. */
  datatype Part = Forwarder | User(acts: Handler)

  datatype Wrapper = GlobalHandlers(gh: seq<Part>) | Coordinator(bridge: bool)

  function Wrap(w: Wrapper, c: Contract): Contract
  {
    match w
    case GlobalHandlers(gh) => if gh == [] then c else Wrapped(c, gh)
    case Coordinator(bridge) => if !c.HasSelector() || !bridge then c else Wrapped(c, [Forwarder])
  }

  /** WrapContract applied to the two wrappers that registration uses. */
  method WrapContract(c: Contract, wrappers: seq<Wrapper>) returns (r: Contract)
    ensures r == WrapAll(c, wrappers)
  {
    r := c;
    for i := 0 to |wrappers|
      invariant WrapAll(r, wrappers[i..]) == WrapAll(c, wrappers)
    {
      r := Wrap(wrappers[i], r);
    }
  }

  function WrapAll(c: Contract, wrappers: seq<Wrapper>): Contract
    decreases |wrappers|
  {
    if wrappers == [] then c else WrapAll(Wrap(wrappers[0], c), wrappers[1..])
  }

  /** What a registered contract runs: the forwarder, then the global handlers, then its own. */
  lemma RegisteredChain(c: Contract, gh: seq<Part>, bridge: bool)
    ensures var r := WrapAll(c, [GlobalHandlers(gh), Coordinator(bridge)]);
            && r.Handlers() == (if c.HasSelector() && bridge then [Forwarder] else []) + gh + c.Handlers()
            && r.Id() == c.Id() && r.Base() == c.Base()
  {
    var c1 := Wrap(GlobalHandlers(gh), c);
    assert c1.HasSelector() == c.HasSelector() && c1.Handlers() == gh + c.Handlers();
    assert WrapAll(c, [GlobalHandlers(gh), Coordinator(bridge)]) == WrapAll(c1, [Coordinator(bridge)])
        == Wrap(Coordinator(bridge), c1);
  }

  datatype Service = Service(name: string, contracts: seq<Contract>)

  const SEPARATOR: string := "::"

  function LookupKey(service: string, contract: string): string
  {
    service + SEPARATOR + contract
  }

  /** The edge server's registry. */
  class EdgeServer {
    var services: seq<Service>
    var contracts: map<string, Contract>
    const gh: seq<Part>
    const bridge: bool

    constructor (gh: seq<Part>, bridge: bool)
      ensures services == [] && contracts == map[] && this.gh == gh && this.bridge == bridge
    {
      services, contracts := [], map[];
      this.gh, this.bridge := gh, bridge;
    }

    /** Registers all contracts of a service, or panics if its name is taken. */
    method RegisterService(svc: Service) returns (panicked: bool)
      modifies this
      ensures panicked <==> exists s :: s in old(services) && s.name == svc.name
      ensures panicked ==> services == old(services) && contracts == old(contracts)
      ensures !panicked ==> services == old(services) + [svc]
      ensures !panicked ==> contracts == Registered(old(contracts), svc, |svc.contracts|, gh, bridge)
    {
      for i := 0 to |services|
        invariant forall k :: 0 <= k < i ==> services[k].name != svc.name
      {
        if services[i].name == svc.name {
          return true;
        }
      }
      services := services + [svc];
      for i := 0 to |svc.contracts|
        invariant services == old(services) + [svc]
        invariant contracts == Registered(old(contracts), svc, i, gh, bridge)
      {
        var c := WrapContract(svc.contracts[i], [GlobalHandlers(gh), Coordinator(bridge)]);
        contracts := contracts[LookupKey(svc.name, svc.contracts[i].Id()) := c];
      }
      return false;
    }
  }

  /** The registry after the first `n` contracts of a service. */
  ghost function Registered(m: map<string, Contract>, svc: Service, n: nat, gh: seq<Part>, bridge: bool): map<string, Contract>
    requires n <= |svc.contracts|
  {
    if n == 0 then m
    else
      var c := svc.contracts[n - 1];
      Registered(m, svc, n - 1, gh, bridge)
        [LookupKey(svc.name, c.Id()) := WrapAll(c, [GlobalHandlers(gh), Coordinator(bridge)])]
  }

  /** The last of the first `n` contracts with the given id, or -1 if there is none. */
  ghost function LastWith(cs: seq<Contract>, n: nat, id: string): (k: int)
    requires n <= |cs|
    ensures -1 <= k < n
    ensures k >= 0 ==> cs[k].Id() == id
    ensures forall j :: k < j < n ==> cs[j].Id() != id
  {
    if n == 0 then -1 else if cs[n - 1].Id() == id then n - 1 else LastWith(cs, n - 1, id)
  }

  /** Resolving an id of a registered service finds its last contract with that id, behind the
      forwarder and the global handlers; ids it does not define keep their old meaning. */
  lemma {:induction false} ResolvesToOwnContract(m: map<string, Contract>, svc: Service, n: nat, gh: seq<Part>, bridge: bool, id: string)
    requires n <= |svc.contracts|
    ensures var r, key, k := Registered(m, svc, n, gh, bridge), LookupKey(svc.name, id), LastWith(svc.contracts, n, id);
            if k == -1 then
              (key in r <==> key in m) && (key in m ==> r[key] == m[key])
            else
              key in r && r[key] == WrapAll(svc.contracts[k], [GlobalHandlers(gh), Coordinator(bridge)])
  {
    if n > 0 {
      KeyInjective(svc.name, id, svc.contracts[n - 1].Id());
      ResolvesToOwnContract(m, svc, n - 1, gh, bridge, id);
    }
  }

  lemma KeyInjective(service: string, a: string, b: string)
    ensures LookupKey(service, a) == LookupKey(service, b) ==> a == b
  {
    var n := |service + SEPARATOR|;
    assert LookupKey(service, a)[n..] == a && LookupKey(service, b)[n..] == b;
  }

  /** Two services can have a key in common exactly if the name of one, with the separator, begins
      the name of the other, with the separator. */
  lemma KeysCanMeet(a: string, b: string)
    ensures (exists x, y :: LookupKey(a, x) == LookupKey(b, y)) <==> a + "::" <= b + "::" || b + "::" <= a + "::"
  {
    if x, y :| LookupKey(a, x) == LookupKey(b, y) {
      assert (a + "::" + x)[..|a| + 2] == a + "::" && (b + "::" + y)[..|b| + 2] == b + "::";
    }
    if a + "::" <= b + "::" {
      assert LookupKey(a, (b + "::")[|a| + 2..]) == b + "::" == LookupKey(b, "");
    }
    if b + "::" <= a + "::" {
      assert LookupKey(b, (a + "::")[|b| + 2..]) == a + "::" == LookupKey(a, "");
    }
  }

  predicate ColonFree(name: string)
  {
    forall i :: 0 <= i < |name| ==> name[i] != ':'
  }

  /** So names without colons have no key in common. */
  lemma ColonFreeKeysDiffer(a: string, b: string, x: string, y: string)
    requires ColonFree(a) && ColonFree(b) && a != b
    ensures LookupKey(a, x) != LookupKey(b, y)
  {
    var s, t := LookupKey(a, x), LookupKey(b, y);
    assert s[..|a|] == a && t[..|b|] == b && s[|a|] == ':' && t[|b|] == ':';
    if |a| < |b| {
      assert t[|a|] == b[|a|] != ':';
    } else if |b| < |a| {
      assert s[|b|] == a[|b|] != ':';
    } else {
      assert s[..|a|] != t[..|a|];
    }
  }

  /** Registering a service leaves the ids of services with other names as they were. */
  lemma {:induction false} OtherServicesAreLeftAlone(m: map<string, Contract>, svc: Service, n: nat, gh: seq<Part>, bridge: bool,
                                                     other: string, id: string)
    requires n <= |svc.contracts| && ColonFree(svc.name) && ColonFree(other) && other != svc.name
    ensures var r, key := Registered(m, svc, n, gh, bridge), LookupKey(other, id);
            (key in r <==> key in m) && (key in m ==> r[key] == m[key])
  {
    if n > 0 {
      ColonFreeKeysDiffer(other, svc.name, id, svc.contracts[n - 1].Id());
      OtherServicesAreLeftAlone(m, svc, n - 1, gh, bridge, other, id);
    }
  }

  // ---------------------------------------------------------------------------------------
  // The forwarder
  // ---------------------------------------------------------------------------------------

  /** The forwarder's only observable action: an attempt to send the request away. */
  const SEND_AWAY: nat := 0

  /** The forwarder as a handler. Whether or not the send succeeds, it stops the chain. */
  function ForwarderScript(forwarded: bool, self: NodeId, sel: Selection): (acts: Handler)
  {
    if forwarded then []
    else match sel
      case Failed => []
      case Target(id) => if id == "" || id == self then [] else [Effect(SEND_AWAY), Stop]
  }

  /** A handler list as one request runs it. */
  function Scripts(parts: seq<Part>, forwarder: Handler): (hs: seq<Handler>)
    ensures |hs| == |parts|
  {
    if parts == [] then []
    else [if parts[0].User? then parts[0].acts else forwarder] + Scripts(parts[1..], forwarder)
  }

  lemma {:induction false} ScriptsConcat(a: seq<Part>, b: seq<Part>, forwarder: Handler)
    ensures Scripts(a + b, forwarder) == Scripts(a, forwarder) + Scripts(b, forwarder)
  {
    if a == [] {
      assert a + b == b;
    } else {
      assert (a + b)[1..] == a[1..] + b;
      ScriptsConcat(a[1..], b, forwarder);
    }
  }

  /** The chain of one request: an optional trace handler, the forwarder, the user's handlers. */
  function Chain(trace: seq<Handler>, user: seq<Handler>, forwarded: bool, self: NodeId, sel: Selection): seq<Handler>
  {
    trace + [ForwarderScript(forwarded, self, sel)] + user
  }

  /** What a request on a registered contract with a selector runs. */
  lemma RegisteredRun(trace: seq<Handler>, c: Contract, gh: seq<Part>, forwarded: bool, self: NodeId, sel: Selection)
    requires c.HasSelector()
    ensures var f := ForwarderScript(forwarded, self, sel);
            trace + Scripts(WrapAll(c, [GlobalHandlers(gh), Coordinator(true)]).Handlers(), f)
            == Chain(trace, Scripts(gh, f) + Scripts(c.Handlers(), f), forwarded, self, sel)
  {
    var f := ForwarderScript(forwarded, self, sel);
    RegisteredChain(c, gh, true);
    ScriptsConcat([Forwarder], gh, f);
    ScriptsConcat([Forwarder] + gh, c.Handlers(), f);
    assert Scripts([Forwarder], f) == [f];
    assert trace + ([f] + Scripts(gh, f) + Scripts(c.Handlers(), f)) == trace + [f] + (Scripts(gh, f) + Scripts(c.Handlers(), f));
  }

  /** The events of the handler at position `h` in the run of a chain. */
  function RunOf(hs: seq<Handler>, h: nat): seq<Event>
  {
    Own(Onion(hs, 0), h)
  }

  /** The whole part of one handler in a run: entered, performed, left. */
  function Whole(h: nat, acts: Handler): seq<Event>
  {
    [Enter(h)] + Flat(h, acts) + [Leave(h)]
  }

  lemma {:induction false} ReachByStops(hs: seq<Handler>, i: nat, h: nat)
    requires i <= h < |hs|
    ensures h < Reach(hs, i) <==> forall k :: i <= k < h ==> !StopsFirst(hs[k])
    decreases |hs| - i
  {
    if i == h {
      AllReachedUnlessStopped(hs, i + 1);
    } else if StopsFirst(hs[i]) {
    } else {
      ReachByStops(hs, i + 1, h);
    }
  }

  /** Exclusive execution. Provided the trace handler lets the chain go on: if the forwarder
      sends the request away, none of the contract's handlers run here; otherwise they all run
      here, up to the first one that stops, exactly as if there were no forwarder. */
  lemma ExclusiveExecution(trace: seq<Handler>, user: seq<Handler>, forwarded: bool, self: NodeId, sel: Selection, j: nat)
    requires NeverStops(trace)
    requires j < |user|
    ensures RunOf(Chain(trace, user, forwarded, self, sel), |trace| + 1 + j)
         == if (forwarded || sel.Failed? || sel.id == "" || sel.id == self) && NeverStops(user[..j])
            then Whole(|trace| + 1 + j, user[j]) else []
  {
    var hs := Chain(trace, user, forwarded, self, sel);
    RunsExactlyOnce(hs, 0, |trace| + 1 + j);
    ForwarderStops(forwarded, self, sel);
    PartReached(hs, |trace|, j);
    assert hs[..|trace|] == trace && hs[|trace| + 1..][..j] == user[..j];
  }

  predicate NeverStops(hs: seq<Handler>)
  {
    forall k :: 0 <= k < |hs| ==> !StopsFirst(hs[k])
  }

  lemma PartReached(hs: seq<Handler>, f: nat, j: nat)
    requires f + 1 + j < |hs| && NeverStops(hs[..f])
    ensures f < Reach(hs, 0)
    ensures f + 1 + j < Reach(hs, 0) <==> !StopsFirst(hs[f]) && NeverStops(hs[f + 1..][..j])
  {
    ReachByStops(hs, 0, f);
    ReachByStops(hs, 0, f + 1 + j);
    var mid := hs[f + 1..][..j];
    assert forall k :: 0 <= k < f ==> hs[..f][k] == hs[k];
    assert forall k :: 0 <= k < j ==> mid[k] == hs[f + 1 + k];
    if !StopsFirst(hs[f]) && NeverStops(mid) {
      forall k | 0 <= k < f + 1 + j ensures !StopsFirst(hs[k]) {
        assert k > f ==> mid[k - f - 1] == hs[k];
      }
    }
  }

  lemma ForwarderStops(forwarded: bool, self: NodeId, sel: Selection)
    ensures StopsFirst(ForwarderScript(forwarded, self, sel)) <==> Forwards(forwarded, self, sel)
  {
    var acts := ForwarderScript(forwarded, self, sel);
    if acts != [] {
      assert acts[1..] == [Stop] && StopsFirst(acts[1..]);
    }
  }

  /** The forwarder's own part in the run: it tries to send, once, exactly for a request that was not
      forwarded, when the selector names another node. */
  lemma SendsOnce(trace: seq<Handler>, user: seq<Handler>, forwarded: bool, self: NodeId, sel: Selection)
    requires NeverStops(trace)
    ensures RunOf(Chain(trace, user, forwarded, self, sel), |trace|)
         == [Enter(|trace|)]
            + (if !forwarded && sel.Target? && sel.id != "" && sel.id != self
               then [Did(|trace|, SEND_AWAY), Stopped(|trace|)] else [])
            + [Leave(|trace|)]
  {
    var hs := Chain(trace, user, forwarded, self, sel);
    assert hs[..|trace|] == trace;
    RunsExactlyOnce(hs, 0, |trace|);
    ReachByStops(hs, 0, |trace|);
    FlatForwarder(|trace|, forwarded, self, sel);
  }

  lemma FlatForwarder(f: nat, forwarded: bool, self: NodeId, sel: Selection)
    ensures Flat(f, ForwarderScript(forwarded, self, sel))
         == if Forwards(forwarded, self, sel) then [Did(f, SEND_AWAY), Stopped(f)] else []
  {
    assert [Effect(SEND_AWAY), Stop][1..] == [Stop] && [Stop][1..] == [];
    assert Flat(f, [Stop]) == [Stopped(f)];
  }

  /** Forwarding is a single hop: for a request that arrived from another node the contract's
      handlers run here, and it is not sent on, whatever this node's selector says. */
  lemma ForwardedRunsHere(trace: seq<Handler>, user: seq<Handler>, self: NodeId, sel: Selection, j: nat)
    requires NeverStops(trace)
    requires j < |user| && NeverStops(user[..j])
    ensures RunOf(Chain(trace, user, true, self, sel), |trace| + 1 + j) == Whole(|trace| + 1 + j, user[j])
    ensures Did(|trace|, SEND_AWAY) !in RunOf(Chain(trace, user, true, self, sel), |trace|)
  {
    ExclusiveExecution(trace, user, true, self, sel, j);
    SendsOnce(trace, user, true, self, sel);
  }
}
