/** How the p2p cluster restores message order (std/clusters/p2pcluster/cluster.go): each
    sender's messages go through a batcher of their own with one worker permit, and every batch
    is sorted by sequence number before it is delivered.

    Entry `e` of a sender's batcher is its `e`-th received message; `key(e)` stands for the
    message's sequence number in the order of bytes.Compare. */
module P2PCluster {
  import opened Batcher
  import opened BatcherInvariant
  import opened BatcherOrder

  type Keys = nat -> int

  // ---------------------------------------------------------------------------------------
  // Sorting a batch
  // ---------------------------------------------------------------------------------------

  function Insert(key: Keys, e: nat, b: seq<nat>): (r: seq<nat>)
  {
    if b == [] || key(e) <= key(b[0]) then [e] + b else [b[0]] + Insert(key, e, b[1..])
  }

  /** What sort.Slice by sequence number leaves behind. */
  function Sorted(key: Keys, b: seq<nat>): (r: seq<nat>)
  {
    if b == [] then [] else Insert(key, b[0], Sorted(key, b[1..]))
  }

  predicate Ascending(key: Keys, b: seq<nat>)
  {
    forall i, j :: 0 <= i < j < |b| ==> key(b[i]) < key(b[j])
  }

  predicate DistinctKeys(key: Keys, b: seq<nat>)
  {
    forall i, j :: 0 <= i < j < |b| ==> key(b[i]) != key(b[j])
  }

  lemma {:induction false} InsertElements(key: Keys, e: nat, b: seq<nat>)
    ensures multiset(Insert(key, e, b)) == multiset(b) + multiset{e}
    ensures forall x :: x in Insert(key, e, b) ==> x == e || x in b
  {
    if b != [] && key(b[0]) < key(e) {
      InsertElements(key, e, b[1..]);
      assert b == [b[0]] + b[1..];
    }
  }

  lemma {:induction false} InsertAscending(key: Keys, e: nat, b: seq<nat>)
    requires Ascending(key, b) && forall x :: x in b ==> key(x) != key(e)
    ensures Ascending(key, Insert(key, e, b))
  {
    if b != [] && key(b[0]) < key(e) {
      var rest := Insert(key, e, b[1..]);
      InsertAscending(key, e, b[1..]);
      InsertElements(key, e, b[1..]);
      AscendingCons(key, b[0], rest);
    } else if b != [] {
      AscendingCons(key, e, b);
    }
  }

  lemma SameElements(a: seq<nat>, b: seq<nat>)
    requires multiset(a) == multiset(b)
    ensures forall x :: x in a ==> x in b
  {
    forall x | x in a ensures x in b {
      assert x in multiset(b);
    }
  }

  lemma AscendingCons(key: Keys, e: nat, b: seq<nat>)
    requires Ascending(key, b) && forall x :: x in b ==> key(e) < key(x)
    ensures Ascending(key, [e] + b)
  {
  }

  /** Sorting yields an ascending permutation of the batch. */
  lemma {:induction false} SortedIsAscending(key: Keys, b: seq<nat>)
    requires DistinctKeys(key, b)
    ensures Ascending(key, Sorted(key, b))
    ensures multiset(Sorted(key, b)) == multiset(b)
  {
    if b != [] {
      var rest := Sorted(key, b[1..]);
      SortedIsAscending(key, b[1..]);
      assert b == [b[0]] + b[1..];
      SameElements(rest, b[1..]);
      InsertElements(key, b[0], rest);
      InsertAscending(key, b[0], rest);
    }
  }

  /** There is only one ascending permutation, so it does not matter how the sort works. */
  lemma {:induction false} AscendingIsUnique(key: Keys, a: seq<nat>, b: seq<nat>)
    requires Ascending(key, a) && Ascending(key, b) && multiset(a) == multiset(b)
    ensures a == b
  {
    assert |a| == |multiset(a)| == |multiset(b)| == |b|;
    if a != [] {
      SameHead(key, a, b);
      TailElements(a);
      TailElements(b);
      AscendingIsUnique(key, a[1..], b[1..]);
      assert a == [a[0]] + a[1..] && b == [b[0]] + b[1..];
    }
  }

  lemma SameHead(key: Keys, a: seq<nat>, b: seq<nat>)
    requires Ascending(key, a) && Ascending(key, b) && a != [] && b != []
    requires multiset(a) == multiset(b)
    ensures a[0] == b[0]
  {
    SameElements(a, b);
    SameElements(b, a);
    HeadIsLeast(key, a, b[0]);
    HeadIsLeast(key, b, a[0]);
  }

  lemma HeadIsLeast(key: Keys, a: seq<nat>, x: nat)
    requires Ascending(key, a) && x in a
    ensures x == a[0] || key(a[0]) < key(x)
  {
  }

  lemma TailElements(a: seq<nat>)
    requires a != []
    ensures multiset(a[1..]) == multiset(a) - multiset{a[0]}
  {
    assert a == [a[0]] + a[1..];
  }

  lemma SortedFixpoint(key: Keys, b: seq<nat>)
    requires Ascending(key, b)
    ensures Sorted(key, b) == b
  {
    assert DistinctKeys(key, b);
    SortedIsAscending(key, b);
    AscendingIsUnique(key, Sorted(key, b), b);
  }

  /** What the delegate receives: the sorted batches, one after the other. */
  function Delivered(key: Keys, batches: seq<seq<nat>>): (r: seq<nat>)
  {
    if batches == [] then []
    else Delivered(key, batches[..|batches| - 1]) + Sorted(key, batches[|batches| - 1])
  }

  /** Where batch `i` begins in the order of arrival. */
  function Offset(batches: seq<seq<nat>>, i: nat): (n: nat)
    requires i <= |batches|
  {
    |Flat(batches[..i])|
  }

  // ---------------------------------------------------------------------------------------
  // One sender
  // ---------------------------------------------------------------------------------------

  /** Every call so far has put its entry into the channel. */
  predicate AllEntered(s: State)
  {
    forall p :: 0 <= p < |s.producers| ==> s.producers[p].pc != Sending
  }

  /** Messages are entered by the one receiving goroutine: no call begins before the entries of
      all earlier ones are in the channel. */
  predicate OneReceiver(cfg: Config, s: State, schedule: seq<Action>)
    decreases |schedule|
  {
    schedule == [] ||
    if Enabled(cfg, s, schedule[0]) then
      (schedule[0].Call? ==> AllEntered(s))
      && OneReceiver(cfg, Do(cfg, s, schedule[0]), schedule[1..])
    else OneReceiver(cfg, s, schedule[1..])
  }

  ghost predicate ArrivalInv(s: State)
  {
    && (forall i :: 0 <= i < |s.sent| ==> s.sent[i] == i)
    && |s.sent| <= |s.producers| <= |s.sent| + 1
    && (forall p :: 0 <= p < |s.producers| ==> (s.producers[p].pc == Sending <==> p >= |s.sent|))
  }

  /** Then the channel order is the order of arrival. */
  lemma {:induction false} SentAsReceived(cfg: Config, s: State, schedule: seq<Action>)
    requires ArrivalInv(s) && OneReceiver(cfg, s, schedule)
    ensures ArrivalInv(Run(cfg, s, schedule))
    decreases |schedule|
  {
    if schedule != [] {
      if Enabled(cfg, s, schedule[0]) {
        ArrivalStep(cfg, s, schedule[0]);
        SentAsReceived(cfg, Do(cfg, s, schedule[0]), schedule[1..]);
      } else {
        SentAsReceived(cfg, s, schedule[1..]);
      }
    }
  }

  lemma ArrivalStep(cfg: Config, s: State, a: Action)
    requires ArrivalInv(s) && Enabled(cfg, s, a)
    requires a.Call? ==> AllEntered(s)
    ensures ArrivalInv(Do(cfg, s, a))
  {
    assert |s.sent| < |s.producers| ==> s.producers[|s.sent|].pc == Sending;
  }

  /** Batch `i` holds a consecutive segment of the messages in order of arrival, the segments follow
      each other from the first message on, and what is delivered in place of the segment is its
      ascending permutation; nothing else is delivered. */
  predicate IsSortedSegment(key: Keys, batches: seq<seq<nat>>, i: nat)
    requires i < |batches|
  {
    var from, to, d := Offset(batches, i), Offset(batches, i + 1), Delivered(key, batches);
    && to == from + |batches[i]| <= |d| == |Flat(batches)|
    && (forall k :: 0 <= k < |batches[i]| ==> batches[i][k] == from + k)
    && Ascending(key, d[from..to])
    && multiset(d[from..to]) == multiset(batches[i])
  }

  /** What a sender's messages look like when they are delivered, after any run. */
  lemma SegmentsSorted(cfg: Config, schedule: seq<Action>, key: Keys, i: nat)
    requires cfg.maxWorkers == 1 && 1 <= cfg.batchSize
    requires OneReceiver(cfg, Init(cfg), schedule)
    requires i < |Run(cfg, Init(cfg), schedule).flushed|
    requires forall e: nat, f: nat :: e < f < |Run(cfg, Init(cfg), schedule).producers| ==> key(e) != key(f)
    ensures IsSortedSegment(key, Run(cfg, Init(cfg), schedule).flushed, i)
  {
    FlushesInSendOrder(cfg, Init(cfg), schedule);
    SentAsReceived(cfg, Init(cfg), schedule);
    SegmentSorted(Run(cfg, Init(cfg), schedule), key, i);
  }

  lemma SegmentSorted(s: State, key: Keys, i: nat)
    requires Flat(s.flushed) <= s.sent && ArrivalInv(s) && i < |s.flushed|
    requires forall e: nat, f: nat :: e < f < |s.producers| ==> key(e) != key(f)
    ensures IsSortedSegment(key, s.flushed, i)
  {
    FlatSegment(s.flushed, i);
    SegmentAt(s.flushed, s.sent, i);
    DeliveredSegment(key, s.flushed, i);
    SortedIsAscending(key, s.flushed[i]);
  }

  /** What is delivered between two offsets is the sorted batch. */
  lemma {:induction false} DeliveredSegment(key: Keys, batches: seq<seq<nat>>, i: nat)
    requires i < |batches|
    ensures |Delivered(key, batches)| == |Flat(batches)|
    ensures Offset(batches, i) <= Offset(batches, i + 1) <= |Flat(batches)|
    ensures Delivered(key, batches)[Offset(batches, i)..Offset(batches, i + 1)] == Sorted(key, batches[i])
  {
    var n := |batches| - 1;
    var init := batches[..n];
    FlatSegment(batches, i);
    DeliveredLength(key, batches);
    DeliveredLength(key, init);
    if i == n {
      assert batches[..n + 1] == batches;
      SliceOfBack(Delivered(key, init), Sorted(key, batches[n]));
    } else {
      DeliveredSegment(key, init, i);
      assert init[..i] == batches[..i] && init[..i + 1] == batches[..i + 1];
      SliceOfFront(Delivered(key, init), Sorted(key, batches[n]), Offset(init, i), Offset(init, i + 1));
    }
  }

  lemma SliceOfFront(a: seq<nat>, b: seq<nat>, lo: nat, hi: nat)
    requires lo <= hi <= |a|
    ensures (a + b)[lo..hi] == a[lo..hi]
  {
  }

  lemma SliceOfBack(a: seq<nat>, b: seq<nat>)
    ensures (a + b)[|a|..|a + b|] == b
  {
  }

  lemma {:induction false} DeliveredLength(key: Keys, batches: seq<seq<nat>>)
    ensures |Delivered(key, batches)| == |Flat(batches)|
  {
    if batches != [] {
      DeliveredLength(key, batches[..|batches| - 1]);
      SortedLength(key, batches[|batches| - 1]);
    }
  }

  lemma {:induction false} SortedLength(key: Keys, b: seq<nat>)
    ensures |Sorted(key, b)| == |b|
  {
    if b != [] {
      SortedLength(key, b[1..]);
      InsertElements(key, b[0], Sorted(key, b[1..]));
      assert |Sorted(key, b)| == |multiset(Sorted(key, b))|;
    }
  }

  /** Batch `i` holds the entries from its offset on. */
  lemma SegmentAt(batches: seq<seq<nat>>, sent: seq<nat>, i: nat)
    requires Flat(batches) <= sent && i < |batches| && forall j :: 0 <= j < |sent| ==> sent[j] == j
    ensures forall k :: 0 <= k < |batches[i]| ==> batches[i][k] == Offset(batches, i) + k < |sent|
  {
    FlatSegment(batches, i);
    forall k | 0 <= k < |batches[i]| ensures batches[i][k] == Offset(batches, i) + k < |sent| {
      assert Flat(batches)[Offset(batches, i)..Offset(batches, i + 1)][k] == Flat(batches)[Offset(batches, i) + k];
    }
  }

  lemma {:induction false} FlatSegment(batches: seq<seq<nat>>, i: nat)
    requires i < |batches|
    ensures Offset(batches, i + 1) == Offset(batches, i) + |batches[i]| <= |Flat(batches)|
    ensures Flat(batches)[Offset(batches, i)..Offset(batches, i + 1)] == batches[i]
  {
    var n := |batches| - 1;
    assert batches[..i + 1][..i] == batches[..i];
    if i == n {
      assert batches[..n + 1] == batches;
    } else {
      var init := batches[..n];
      FlatSegment(init, i);
      assert init[..i] == batches[..i] && init[..i + 1] == batches[..i + 1];
      assert Flat(batches) == Flat(init) + batches[n];
    }
  }

  /** The first of `n` messages, in the order of their arrival. */
  predicate IsPrefixOfArrivals(d: seq<nat>, n: nat)
  {
    |d| <= n && forall i :: 0 <= i < |d| ==> d[i] == i
  }

  /** Messages that arrive in order are delivered in order: what is delivered is then exactly a
      prefix of what has arrived. */
  lemma InOrderStaysInOrder(cfg: Config, schedule: seq<Action>, key: Keys)
    requires cfg.maxWorkers == 1 && 1 <= cfg.batchSize
    requires OneReceiver(cfg, Init(cfg), schedule)
    requires forall e: nat, f: nat :: e < f < |Run(cfg, Init(cfg), schedule).producers| ==> key(e) < key(f)
    ensures var s := Run(cfg, Init(cfg), schedule);
            IsPrefixOfArrivals(Delivered(key, s.flushed), |s.producers|)
  {
    FlushesInSendOrder(cfg, Init(cfg), schedule);
    SentAsReceived(cfg, Init(cfg), schedule);
    DeliveredInOrder(Run(cfg, Init(cfg), schedule), key);
  }

  lemma DeliveredInOrder(s: State, key: Keys)
    requires Flat(s.flushed) <= s.sent && ArrivalInv(s)
    requires forall e: nat, f: nat :: e < f < |s.producers| ==> key(e) < key(f)
    ensures IsPrefixOfArrivals(Delivered(key, s.flushed), |s.producers|)
  {
    DeliveredAscending(key, s.flushed, s.sent);
    PrefixAt(Flat(s.flushed), s.sent);
  }

  lemma PrefixAt(a: seq<nat>, b: seq<nat>)
    requires a <= b
    ensures |a| <= |b| && forall i :: 0 <= i < |a| ==> a[i] == b[i]
  {
  }

  lemma {:induction false} DeliveredAscending(key: Keys, batches: seq<seq<nat>>, sent: seq<nat>)
    requires Flat(batches) <= sent && Ascending(key, sent)
    ensures Delivered(key, batches) == Flat(batches)
  {
    if batches != [] {
      var n := |batches| - 1;
      PrefixParts(Flat(batches[..n]), batches[n], sent);
      AscendingSlice(key, sent, |Flat(batches[..n])|, |Flat(batches)|);
      SortedFixpoint(key, batches[n]);
      DeliveredAscending(key, batches[..n], sent);
    }
  }

  lemma PrefixParts(a: seq<nat>, b: seq<nat>, c: seq<nat>)
    requires a + b <= c
    ensures a <= c && c[|a|..|a + b|] == b
  {
    assert a == (a + b)[..|a|] && b == (a + b)[|a|..];
  }

  lemma AscendingSlice(key: Keys, b: seq<nat>, lo: nat, hi: nat)
    requires Ascending(key, b) && lo <= hi <= |b|
    ensures Ascending(key, b[lo..hi])
  {
  }

  // ---------------------------------------------------------------------------------------
  // Many senders
  // ---------------------------------------------------------------------------------------

  type Tag = string

  /** A step of the batcher that belongs to a tag. */
  datatype Tagged = Tagged(tag: Tag, action: Action)

  /** The batcher of a tag; MultiBatcher creates it at its first use. */
  function BatcherOf(cfg: Config, pool: map<Tag, State>, tag: Tag): State
  {
    if tag in pool then pool[tag] else Init(cfg)
  }

  function RunMulti(cfg: Config, pool: map<Tag, State>, schedule: seq<Tagged>): (r: map<Tag, State>)
    decreases |schedule|
  {
    if schedule == [] then pool
    else
      var s, a := BatcherOf(cfg, pool, schedule[0].tag), schedule[0].action;
      RunMulti(cfg, pool[schedule[0].tag := if Enabled(cfg, s, a) then Do(cfg, s, a) else s], schedule[1..])
  }

  /** The steps of one tag. */
  function Only(schedule: seq<Tagged>, tag: Tag): (r: seq<Action>)
  {
    if schedule == [] then []
    else (if schedule[0].tag == tag then [schedule[0].action] else []) + Only(schedule[1..], tag)
  }

  /** Senders do not disturb each other: each tag's batcher runs as if it were alone. */
  lemma {:induction false} TagsAreIndependent(cfg: Config, pool: map<Tag, State>, schedule: seq<Tagged>, tag: Tag)
    ensures BatcherOf(cfg, RunMulti(cfg, pool, schedule), tag) == Run(cfg, BatcherOf(cfg, pool, tag), Only(schedule, tag))
    decreases |schedule|
  {
    if schedule != [] {
      var t, a := schedule[0].tag, schedule[0].action;
      var s := BatcherOf(cfg, pool, t);
      TagsAreIndependent(cfg, pool[t := if Enabled(cfg, s, a) then Do(cfg, s, a) else s], schedule[1..], tag);
      if t == tag {
        assert Only(schedule, tag)[0] == a && Only(schedule, tag)[1..] == Only(schedule[1..], tag);
      } else {
        assert Only(schedule, tag) == Only(schedule[1..], tag);
      }
    }
  }

  /** The one receiving goroutine enters the messages of all senders. */
  ghost predicate OneReceiverForAll(cfg: Config, pool: map<Tag, State>, schedule: seq<Tagged>)
    decreases |schedule|
  {
    schedule != [] ==>
      var s, a := BatcherOf(cfg, pool, schedule[0].tag), schedule[0].action;
      && (a.Call? ==> forall tag :: tag in pool ==> AllEntered(pool[tag]))
      && OneReceiverForAll(cfg, pool[schedule[0].tag := if Enabled(cfg, s, a) then Do(cfg, s, a) else s], schedule[1..])
  }

  lemma {:induction false} OneReceiverForEach(cfg: Config, pool: map<Tag, State>, schedule: seq<Tagged>, tag: Tag)
    requires OneReceiverForAll(cfg, pool, schedule)
    ensures OneReceiver(cfg, BatcherOf(cfg, pool, tag), Only(schedule, tag))
    decreases |schedule|
  {
    if schedule != [] {
      var t, a := schedule[0].tag, schedule[0].action;
      var s := BatcherOf(cfg, pool, t);
      OneReceiverForEach(cfg, pool[t := if Enabled(cfg, s, a) then Do(cfg, s, a) else s], schedule[1..], tag);
      if t == tag {
        assert Only(schedule, tag)[0] == a && Only(schedule, tag)[1..] == Only(schedule[1..], tag);
      } else {
        assert Only(schedule, tag) == Only(schedule[1..], tag);
      }
    }
  }

  /** Many senders at once, whatever the interleaving: each one's messages are delivered in sorted
      consecutive segments of their order of arrival, and in order if they arrive in order. */
  lemma SendersKeepTheirOrder(cfg: Config, schedule: seq<Tagged>, tag: Tag, key: Keys)
    requires cfg.maxWorkers == 1 && 1 <= cfg.batchSize
    requires OneReceiverForAll(cfg, map[], schedule)
    ensures var s := BatcherOf(cfg, RunMulti(cfg, map[], schedule), tag);
            && ((forall e: nat, f: nat :: e < f < |s.producers| ==> key(e) != key(f)) ==>
                  forall i: nat :: i < |s.flushed| ==> IsSortedSegment(key, s.flushed, i))
            && ((forall e: nat, f: nat :: e < f < |s.producers| ==> key(e) < key(f)) ==>
                  IsPrefixOfArrivals(Delivered(key, s.flushed), |s.producers|))
  {
    var own := Only(schedule, tag);
    TagsAreIndependent(cfg, map[], schedule, tag);
    OneReceiverForEach(cfg, map[], schedule, tag);
    var s := Run(cfg, Init(cfg), own);
    if forall e: nat, f: nat :: e < f < |s.producers| ==> key(e) != key(f) {
      forall i: nat | i < |s.flushed| ensures IsSortedSegment(key, s.flushed, i) {
        SegmentsSorted(cfg, own, key, i);
      }
    }
    if forall e: nat, f: nat :: e < f < |s.producers| ==> key(e) < key(f) {
      InOrderStaysInOrder(cfg, own, key);
    }
  }
}
