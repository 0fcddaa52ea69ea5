/** What every run of a handler chain satisfies, whatever the handlers do (kit/ctx.go). */
module HandlerChainLaws {
  import opened HandlerChain

  /** The handlers entered, in order. */
  function Entered(t: seq<Event>): (r: seq<nat>)
  {
    if t == [] then []
    else (if t[0].Enter? then [t[0].h] else []) + Entered(t[1..])
  }

  /** The events of handler `h`. */
  function Own(t: seq<Event>, h: nat): (r: seq<Event>)
  {
    if t == [] then []
    else (if t[0].h == h then [t[0]] else []) + Own(t[1..], h)
  }

  function Range(lo: nat, hi: nat): (r: seq<nat>)
    decreases hi - lo
  {
    if lo >= hi then [] else [lo] + Range(lo + 1, hi)
  }

  /** The first chain operation of the handler is StopExecution. */
  predicate StopsFirst(acts: Handler)
  {
    acts != [] && (acts[0].Stop? || (acts[0].Effect? && StopsFirst(acts[1..])))
  }

  /** Just after the first handler from `i` on that stops before calling Next. */
  function Reach(hs: seq<Handler>, i: nat): (n: nat)
    decreases |hs| - i
  {
    if i >= |hs| then i else if StopsFirst(hs[i]) then i + 1 else Reach(hs, i + 1)
  }

  /** The open handlers after `t`, innermost last; None if some event is not of the innermost
      open handler. */
  datatype Frames = Broken | Open(stack: seq<nat>)

  function Replay(t: seq<Event>, s: seq<nat>): (f: Frames)
  {
    if t == [] then Open(s)
    else if t[0].Enter? then Replay(t[1..], s + [t[0].h])
    else if s == [] || s[|s| - 1] != t[0].h then Broken
    else Replay(t[1..], if t[0].Leave? then s[..|s| - 1] else s)
  }

  /** After StopExecution, or once any call of Next has come back, nothing new is entered. */
  ghost predicate QuietAfterControl(t: seq<Event>)
  {
    forall p, q :: 0 <= p < q < |t| && (t[p].Stopped? || t[p].Return?) ==> !t[q].Enter?
  }

  // ---------------------------------------------------------------------------------------
  // Concatenation
  // ---------------------------------------------------------------------------------------

  lemma {:induction false} EnteredConcat(a: seq<Event>, b: seq<Event>)
    ensures Entered(a + b) == Entered(a) + Entered(b)
  {
    if a == [] {
      assert a + b == b;
    } else {
      var t, first := a + b, if a[0].Enter? then [a[0].h] else [];
      assert t[0] == a[0] && t[1..] == a[1..] + b;
      EnteredConcat(a[1..], b);
      assert first + (Entered(a[1..]) + Entered(b)) == (first + Entered(a[1..])) + Entered(b);
    }
  }

  lemma {:induction false} OwnConcat(a: seq<Event>, b: seq<Event>, h: nat)
    ensures Own(a + b, h) == Own(a, h) + Own(b, h)
  {
    if a == [] {
      assert a + b == b;
    } else {
      var t, first := a + b, if a[0].h == h then [a[0]] else [];
      assert t[0] == a[0] && t[1..] == a[1..] + b;
      OwnConcat(a[1..], b, h);
      assert first + (Own(a[1..], h) + Own(b, h)) == (first + Own(a[1..], h)) + Own(b, h);
    }
  }

  lemma {:induction false} ReplayConcat(a: seq<Event>, b: seq<Event>, s: seq<nat>)
    ensures Replay(a, s).Open? ==> Replay(a + b, s) == Replay(b, Replay(a, s).stack)
  {
    if a == [] {
      assert a + b == b;
    } else {
      assert (a + b)[1..] == a[1..] + b;
      ReplayConcat(a[1..], b, if a[0].Enter? then s + [a[0].h] else if s == [] || !a[0].Leave? then s else s[..|s| - 1]);
    }
  }

  lemma QuietConcat(a: seq<Event>, b: seq<Event>)
    requires QuietAfterControl(a) && QuietAfterControl(b)
    requires (forall e :: e in a ==> !e.Stopped? && !e.Return?) || (forall e :: e in b ==> !e.Enter?)
    ensures QuietAfterControl(a + b)
  {
    forall p, q | 0 <= p < q < |a + b| && ((a + b)[p].Stopped? || (a + b)[p].Return?)
      ensures !(a + b)[q].Enter?
    {
      if q < |a| {
        assert !a[q].Enter?;
      } else if p >= |a| {
        assert !b[q - |a|].Enter?;
      } else {
        assert a[p] in a && b[q - |a|] in b;
      }
    }
  }

  lemma {:induction false} FlatFacts(h: nat, acts: Handler, s: seq<nat>)
    ensures Entered(Flat(h, acts)) == []
    ensures forall e :: e in Flat(h, acts) ==> !e.Enter?
    ensures Own(Flat(h, acts), h) == Flat(h, acts)
    ensures Replay(Flat(h, acts), s + [h]) == Open(s + [h])
  {
    if acts != [] {
      FlatFacts(h, acts[1..], s);
      var t, rest := Flat(h, acts), Flat(h, acts[1..]);
      if acts[0].Next? {
        assert t[1..] == [Return(h)] + rest && t[1..][1..] == rest;
      } else {
        assert t[1..] == rest;
      }
    }
  }

  lemma {:induction false} FlatIsOwn(h: nat, acts: Handler, g: nat)
    requires g != h
    ensures Own(Flat(h, acts), g) == []
  {
    if acts != [] {
      FlatIsOwn(h, acts[1..], g);
      var first := if acts[0].Next? then [Call(h), Return(h)] else if acts[0].Stop? then [Stopped(h)] else [Did(h, acts[0].tag)];
      OwnConcat(first, Flat(h, acts[1..]), g);
    }
  }

  // ---------------------------------------------------------------------------------------
  // Which handlers run, and in what order
  // ---------------------------------------------------------------------------------------

  /** Handlers are entered once each, in order, up to the first one that stops. */
  lemma {:induction false} EnteredInOrder(hs: seq<Handler>, i: nat)
    requires i <= |hs|
    ensures Entered(Onion(hs, i)) == Range(i, Reach(hs, i))
    decreases |hs| - i, 0
  {
    if i < |hs| {
      var layer := Layer(hs, i, hs[i]);
      var rest := if Passive(hs[i]) then Onion(hs, i + 1) else [];
      EnteredInOrder(hs, i + 1);
      EnteredInLayer(hs, i, hs[i]);
      EnteredConcat([Enter(i)], layer);
      EnteredConcat([Enter(i)] + layer, [Leave(i)]);
      EnteredConcat([Enter(i)] + layer + [Leave(i)], rest);
      PassiveOrControl(hs[i]);
    }
  }

  lemma {:induction false} PassiveOrControl(acts: Handler)
    ensures StopsFirst(acts) ==> !Passive(acts)
  {
    if acts != [] {
      PassiveStep(acts);
      PassiveOrControl(acts[1..]);
    }
  }

  lemma {:induction false} EnteredInLayer(hs: seq<Handler>, i: nat, acts: Handler)
    requires i < |hs|
    ensures Entered(Layer(hs, i, acts)) == if Passive(acts) || StopsFirst(acts) then [] else Entered(Onion(hs, i + 1))
    decreases |hs| - i - 1, |acts| + 1
  {
    if acts != [] {
      PassiveStep(acts);
      FlatFacts(i, acts[1..], []);
      match acts[0] {
        case Effect(tag) =>
          EnteredInLayer(hs, i, acts[1..]);
          EnteredConcat([Did(i, tag)], Layer(hs, i, acts[1..]));
        case Stop =>
          EnteredConcat([Stopped(i)], Flat(i, acts[1..]));
        case Next =>
          var inner := Onion(hs, i + 1);
          EnteredConcat([Call(i)], inner);
          EnteredConcat([Call(i)] + inner, [Return(i)]);
          EnteredConcat([Call(i)] + inner + [Return(i)], Flat(i, acts[1..]));
      }
    }
  }

  /** Every handler is reached exactly when none but the last stops first. */
  lemma {:induction false} AllReachedUnlessStopped(hs: seq<Handler>, i: nat)
    requires i <= |hs|
    ensures i <= Reach(hs, i) <= |hs|
    ensures Reach(hs, i) == |hs| <==> forall k :: i <= k < |hs| - 1 ==> !StopsFirst(hs[k])
    decreases |hs| - i
  {
    if i < |hs| && !StopsFirst(hs[i]) {
      AllReachedUnlessStopped(hs, i + 1);
    }
  }

  /** A handler that is reached is entered once, performs all its actions in order and is
      left once; any other handler does nothing. */
  lemma {:induction false} RunsExactlyOnce(hs: seq<Handler>, i: nat, h: nat)
    requires i <= |hs|
    ensures Own(Onion(hs, i), h)
         == if i <= h < Reach(hs, i) && h < |hs| then [Enter(h)] + Flat(h, hs[h]) + [Leave(h)] else []
    decreases |hs| - i, 0
  {
    if i < |hs| {
      RunsExactlyOnce(hs, i + 1, i);
      AllReachedUnlessStopped(hs, i + 1);
      if h == i {
        OwnFirst(hs, i);
      } else {
        RunsExactlyOnce(hs, i + 1, h);
        OwnLater(hs, i, h);
      }
    }
  }

  lemma OwnFirst(hs: seq<Handler>, i: nat)
    requires i < |hs|
    requires Own(Onion(hs, i + 1), i) == []
    ensures Own(Onion(hs, i), i) == [Enter(i)] + Flat(i, hs[i]) + [Leave(i)]
  {
    OwnOnion(hs, i, i);
    OwnInLayer(hs, i, hs[i], i);
    assert Own([Enter(i)], i) == [Enter(i)] && Own([Leave(i)], i) == [Leave(i)];
  }

  /** What a handler other than the outermost one does, it does inside the rest of the chain. */
  lemma OwnLater(hs: seq<Handler>, i: nat, h: nat)
    requires i < |hs| && h != i
    requires Own(Onion(hs, i + 1), i) == []
    ensures Own(Onion(hs, i), h) == if StopsFirst(hs[i]) then [] else Own(Onion(hs, i + 1), h)
  {
    OwnOnion(hs, i, h);
    OwnInLayer(hs, i, hs[i], h);
    PassiveOrControl(hs[i]);
    assert Own([Enter(i)], h) == [] && Own([Leave(i)], h) == [];
  }

  lemma OwnOnion(hs: seq<Handler>, i: nat, h: nat)
    requires i < |hs|
    ensures Own(Onion(hs, i), h)
         == Own([Enter(i)], h) + Own(Layer(hs, i, hs[i]), h) + Own([Leave(i)], h)
            + (if Passive(hs[i]) then Own(Onion(hs, i + 1), h) else [])
  {
    var layer := Layer(hs, i, hs[i]);
    var rest := if Passive(hs[i]) then Onion(hs, i + 1) else [];
    OwnConcat([Enter(i)], layer, h);
    OwnConcat([Enter(i)] + layer, [Leave(i)], h);
    OwnConcat([Enter(i)] + layer + [Leave(i)], rest, h);
  }

  lemma {:induction false} OwnInLayer(hs: seq<Handler>, i: nat, acts: Handler, h: nat)
    requires i < |hs|
    requires Own(Onion(hs, i + 1), i) == []
    ensures Own(Layer(hs, i, acts), h)
         == if h == i then Flat(i, acts) else if Passive(acts) || StopsFirst(acts) then [] else Own(Onion(hs, i + 1), h)
    decreases |acts|
  {
    if acts != [] {
      PassiveStep(acts);
      match acts[0] {
        case Effect(tag) =>
          OwnInLayer(hs, i, acts[1..], h);
          OwnConcat([Did(i, tag)], Layer(hs, i, acts[1..]), h);
          OwnEffect(i, acts, h);
        case Stop =>
          OwnFlat(i, acts, h);
        case Next =>
          OwnNext(i, Onion(hs, i + 1), Flat(i, acts[1..]), h);
          OwnFlat(i, acts[1..], h);
      }
    }
  }

  lemma OwnEffect(i: nat, acts: Handler, h: nat)
    requires acts != [] && acts[0].Effect?
    ensures Own([Did(i, acts[0].tag)], h) == if h == i then [Did(i, acts[0].tag)] else []
    ensures Flat(i, acts) == [Did(i, acts[0].tag)] + Flat(i, acts[1..])
  {
  }

  lemma OwnFlat(i: nat, acts: Handler, h: nat)
    ensures Own(Flat(i, acts), h) == if h == i then Flat(i, acts) else []
  {
    FlatFacts(i, acts, []);
    if h != i {
      FlatIsOwn(i, acts, h);
    }
  }

  lemma OwnNext(i: nat, inner: seq<Event>, rest: seq<Event>, h: nat)
    ensures Own([Call(i)] + inner + [Return(i)] + rest, h)
         == if h == i then [Call(i)] + Own(inner, h) + [Return(i)] + Own(rest, h) else Own(inner, h) + Own(rest, h)
  {
    OwnConcat([Call(i)], inner, h);
    OwnConcat([Call(i)] + inner, [Return(i)], h);
    OwnConcat([Call(i)] + inner + [Return(i)], rest, h);
    assert Own([Call(i)], h) == (if h == i then [Call(i)] else []) && Own([Return(i)], h) == if h == i then [Return(i)] else [];
  }

  // ---------------------------------------------------------------------------------------
  // Nesting
  // ---------------------------------------------------------------------------------------

  /** Handlers are properly nested: each event belongs to the innermost open handler, and
      whatever a handler's Next has entered is left before that Next returns. */
  lemma {:induction false} WellNested(hs: seq<Handler>, i: nat, s: seq<nat>)
    ensures Replay(Onion(hs, i), s) == Open(s)
    decreases |hs| - i, 0
  {
    if i < |hs| {
      var layer := Layer(hs, i, hs[i]);
      var rest := if Passive(hs[i]) then Onion(hs, i + 1) else [];
      WellNestedLayer(hs, i, hs[i], s);
      WellNested(hs, i + 1, s);
      assert Replay([Enter(i)], s) == Open(s + [i]);
      assert (s + [i])[..|s|] == s;
      assert Replay([Leave(i)], s + [i]) == Open(s);
      ReplayConcat([Enter(i)], layer, s);
      ReplayConcat([Enter(i)] + layer, [Leave(i)], s);
      ReplayConcat([Enter(i)] + layer + [Leave(i)], rest, s);
    }
  }

  lemma {:induction false} WellNestedLayer(hs: seq<Handler>, i: nat, acts: Handler, s: seq<nat>)
    requires i < |hs|
    ensures Replay(Layer(hs, i, acts), s + [i]) == Open(s + [i])
    decreases |hs| - i - 1, |acts| + 1
  {
    if acts != [] {
      FlatFacts(i, acts[1..], s);
      match acts[0] {
        case Effect(tag) =>
          WellNestedLayer(hs, i, acts[1..], s);
          ReplayConcat([Did(i, tag)], Layer(hs, i, acts[1..]), s + [i]);
        case Stop =>
          ReplayConcat([Stopped(i)], Flat(i, acts[1..]), s + [i]);
        case Next =>
          var inner := Onion(hs, i + 1);
          WellNested(hs, i + 1, s + [i]);
          ReplayConcat([Call(i)], inner, s + [i]);
          ReplayConcat([Call(i)] + inner, [Return(i)], s + [i]);
          ReplayConcat([Call(i)] + inner + [Return(i)], Flat(i, acts[1..]), s + [i]);
      }
    }
  }

  /** Everything after a handler that calls Next completes inside its first Next, and nothing
      is entered after StopExecution. */
  lemma {:induction false} NothingNewAfterControl(hs: seq<Handler>, i: nat)
    ensures QuietAfterControl(Onion(hs, i))
    decreases |hs| - i, 0
  {
    if i < |hs| {
      var layer := Layer(hs, i, hs[i]);
      var rest := if Passive(hs[i]) then Onion(hs, i + 1) else [];
      NothingNewInLayer(hs, i, hs[i]);
      NothingNewAfterControl(hs, i + 1);
      QuietConcat([Enter(i)], layer);
      QuietConcat([Enter(i)] + layer, [Leave(i)]);
      QuietConcat([Enter(i)] + layer + [Leave(i)], rest);
    }
  }

  lemma {:induction false} NothingNewInLayer(hs: seq<Handler>, i: nat, acts: Handler)
    requires i < |hs|
    ensures QuietAfterControl(Layer(hs, i, acts))
    ensures Passive(acts) ==> forall e :: e in Layer(hs, i, acts) ==> e.Did?
    decreases |hs| - i - 1, |acts| + 1
  {
    if acts != [] {
      PassiveStep(acts);
      FlatFacts(i, acts[1..], []);
      match acts[0] {
        case Effect(tag) =>
          NothingNewInLayer(hs, i, acts[1..]);
          QuietConcat([Did(i, tag)], Layer(hs, i, acts[1..]));
        case Stop =>
          QuietConcat([Stopped(i)], Flat(i, acts[1..]));
        case Next =>
          NothingNewAfterControl(hs, i + 1);
          QuietConcat([Call(i)], Onion(hs, i + 1));
          QuietConcat([Call(i)] + Onion(hs, i + 1), [Return(i)] + Flat(i, acts[1..]));
          assert Layer(hs, i, acts) == [Call(i)] + Onion(hs, i + 1) + ([Return(i)] + Flat(i, acts[1..]));
      }
    }
  }
}
