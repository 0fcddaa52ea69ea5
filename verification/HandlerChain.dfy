/** The handler chain of a request context (kit/ctx.go).

    A handler may call Next and StopExecution any number of times, at any depth and in any
    order. Since the chain never enters a handler twice, one run of a chain is determined by
    the finite list of actions each handler performs, so a handler is modelled as that list.

    `Context` executes the chain exactly as the source does: one shared index, moved by Next,
    by the loop in Next, and by StopExecution. `Onion` says what such a run means without any
    index: handlers wrapped around each other. The lemmas are about `Onion`. */
module HandlerChain {
  import opened Wrappers

  /** What a handler does: the two chain operations, or anything else (tagged). */
  datatype Action = Next | Stop | Effect(tag: nat)

  type Handler = seq<Action>

  /** What an observer of the run sees. `h` is the position of the acting handler. */
  datatype Event =
    | Enter(h: nat)
    | Leave(h: nat)
    | Call(h: nat)
    | Return(h: nat)
    | Stopped(h: nat)
    | Did(h: nat, tag: nat)

  /** Where StopExecution moves the index. */
  const ABORT_INDEX: int := 0x3FFF_FFFF_FFFF_FFFF

  // ---------------------------------------------------------------------------------------
  // Reference meaning
  // ---------------------------------------------------------------------------------------

  /** Handler `h` performing `acts` when no handler is left to enter: Next comes straight back. */
  function Flat(h: nat, acts: Handler): (t: seq<Event>)
  {
    if acts == [] then []
    else
      (match acts[0]
       case Next => [Call(h), Return(h)]
       case Stop => [Stopped(h)]
       case Effect(tag) => [Did(h, tag)])
      + Flat(h, acts[1..])
  }

  /** True if the actions neither advance nor stop the chain. */
  predicate Passive(acts: Handler)
  {
    forall a :: a in acts ==> a.Effect?
  }

  /** The run of handlers `i, i+1, ...`: a passive handler runs before the rest, a handler
      that calls Next has the whole rest inside its first call, a handler that stops first
      has nothing after it. */
  function Onion(hs: seq<Handler>, i: nat): (t: seq<Event>)
    decreases |hs| - i, 0
  {
    if i >= |hs| then []
    else
      [Enter(i)] + Layer(hs, i, hs[i]) + [Leave(i)]
      + (if Passive(hs[i]) then Onion(hs, i + 1) else [])
  }

  /** The events between entering handler `i` and leaving it, from the point where `acts` is
      still to be done and the rest of the chain has not been entered. */
  function Layer(hs: seq<Handler>, i: nat, acts: Handler): (t: seq<Event>)
    requires i < |hs|
    decreases |hs| - i - 1, |acts| + 1
  {
    if acts == [] then []
    else match acts[0]
      case Effect(tag) => [Did(i, tag)] + Layer(hs, i, acts[1..])
      case Stop => [Stopped(i)] + Flat(i, acts[1..])
      case Next => [Call(i)] + Onion(hs, i + 1) + [Return(i)] + Flat(i, acts[1..])
  }

  // ---------------------------------------------------------------------------------------
  // The context
  // ---------------------------------------------------------------------------------------

  class Context {
    const handlers: seq<Handler>
    var handlerIndex: int
    ghost var log: seq<Event>

    /** The chain is shorter than the abort index, or StopExecution would not stop it. */
    ghost predicate Valid()
      reads this
    {
      0 <= handlerIndex && |handlers| < ABORT_INDEX
    }

    /** How many handlers the index has not passed yet: the termination measure. */
    ghost function Left(): nat
      reads this
    {
      if handlerIndex < |handlers| then |handlers| - handlerIndex else 0
    }

    constructor (handlers: seq<Handler>)
      requires |handlers| < ABORT_INDEX
      ensures Valid() && this.handlers == handlers && handlerIndex == 0 && log == []
    {
      this.handlers := handlers;
      handlerIndex := 0;
      log := [];
    }

    /** What is still to come when the index stands at `handlerIndex`. */
    ghost function Rest(): seq<Event>
      requires Valid()
      reads this
    {
      if handlerIndex < |handlers| then Onion(handlers, handlerIndex) else []
    }

    /** Moves past the current handler and runs everything that is left. */
    method Next()
      requires Valid()
      modifies this
      ensures Valid() && |handlers| < handlerIndex
      ensures log == old(log + Rest())
      decreases Left(), 0
    {
      ghost var target := log + Rest();
      handlerIndex := handlerIndex + 1;
      while handlerIndex <= |handlers|
        invariant Valid() && old(handlerIndex) < handlerIndex
        invariant log + From(handlers, handlerIndex) == target
        decreases |handlers| - handlerIndex
      {
        var i := handlerIndex - 1;
        ghost var before := log;
        log := log + [Enter(i)];
        Run(i, handlers[i]);
        log := log + [Leave(i)];
        OnionStep(before, log, handlers, i);
        handlerIndex := handlerIndex + 1;
        FromStep(log, handlers, i, handlerIndex);
      }
      assert log + [] == log;
    }

    /** Handler `i` performs one action. Either the chain still stands at handler `i`, or it
        has been run to its end or stopped. */
    method Perform(i: nat, a: Action)
      requires Valid() && i < |handlers|
      requires handlerIndex == i + 1 || |handlers| < handlerIndex
      modifies this
      ensures Valid()
      ensures if a.Effect? then handlerIndex == old(handlerIndex) else |handlers| < handlerIndex
      ensures log == old(log) + One(handlers, i, a, old(handlerIndex) == i + 1)
      decreases Left(), 1
    {
      match a
      case Effect(tag) =>
        log := log + [Did(i, tag)];
      case Stop =>
        StopExecution();
        log := log + [Stopped(i)];
      case Next =>
        log := log + [Call(i)];
        Next();
        log := log + [Return(i)];
    }

    /** Handler `i` performs `acts`, the rest of its body. */
    method Run(i: nat, acts: Handler)
      requires Valid() && i < |handlers|
      requires handlerIndex == i + 1 || |handlers| < handlerIndex
      modifies this
      ensures Valid()
      ensures old(handlerIndex) == i + 1 && Passive(acts) ==> handlerIndex == i + 1
      ensures old(handlerIndex) != i + 1 || !Passive(acts) ==> |handlers| < handlerIndex
      ensures log == old(log) + Body(handlers, i, acts, old(handlerIndex) == i + 1)
      decreases Left(), |acts| + 2
    {
      if acts != [] {
        BodyStep(log, handlers, i, acts, handlerIndex == i + 1);
        Perform(i, acts[0]);
        Run(i, acts[1..]);
      }
    }

    method StopExecution()
      requires Valid()
      modifies this`handlerIndex
      ensures Valid() && |handlers| < handlerIndex
    {
      handlerIndex := ABORT_INDEX;
    }
  }

  /** The run that is still to come when the loop in Next tests the index `k`. */
  ghost function From(hs: seq<Handler>, k: int): seq<Event>
  {
    if 1 <= k <= |hs| then Onion(hs, k - 1) else []
  }

  lemma FromStep(log: seq<Event>, hs: seq<Handler>, i: nat, k: int)
    requires i < |hs| && if Passive(hs[i]) then k == i + 2 else k > |hs|
    ensures log + From(hs, k) == log + (if Passive(hs[i]) then Onion(hs, i + 1) else [])
  {
  }

  lemma OnionStep(before: seq<Event>, after: seq<Event>, hs: seq<Handler>, i: nat)
    requires i < |hs| && after == before + [Enter(i)] + Layer(hs, i, hs[i]) + [Leave(i)]
    ensures before + Onion(hs, i) == after + (if Passive(hs[i]) then Onion(hs, i + 1) else [])
  {
    var rest := if Passive(hs[i]) then Onion(hs, i + 1) else [];
    RegroupFive(before, [Enter(i)], Layer(hs, i, hs[i]), [Leave(i)], rest);
  }

  lemma PassiveStep(acts: Handler)
    requires acts != []
    ensures Passive(acts) <==> acts[0].Effect? && Passive(acts[1..])
  {
    assert acts == [acts[0]] + acts[1..];
  }

  /** One action of handler `i`; `first` if the chain still stands at it. */
  ghost function One(hs: seq<Handler>, i: nat, a: Action, first: bool): (t: seq<Event>)
  {
    match a
    case Effect(tag) => [Did(i, tag)]
    case Stop => [Stopped(i)]
    case Next => [Call(i)] + (if first then Onion(hs, i + 1) else []) + [Return(i)]
  }

  ghost function Body(hs: seq<Handler>, i: nat, acts: Handler, first: bool): (t: seq<Event>)
    requires i < |hs|
  {
    if first then Layer(hs, i, acts) else Flat(i, acts)
  }

  lemma BodyStep(log: seq<Event>, hs: seq<Handler>, i: nat, acts: Handler, first: bool)
    requires i < |hs| && acts != []
    ensures log + Body(hs, i, acts, first)
         == log + One(hs, i, acts[0], first) + Body(hs, i, acts[1..], first && acts[0].Effect?)
    ensures Passive(acts) <==> acts[0].Effect? && Passive(acts[1..])
  {
    PassiveStep(acts);
    var one, rest := One(hs, i, acts[0], first), Body(hs, i, acts[1..], first && acts[0].Effect?);
    assert Body(hs, i, acts, first) == one + rest;
    assert log + (one + rest) == log + one + rest;
  }
}
