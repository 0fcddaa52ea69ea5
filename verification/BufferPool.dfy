/** Byte buffers reused by size class (kit/utils/buf/bytes.go). */
module BufferPool {
  import opened PowersOfTwo

  type Byte = bv8

  /** A slice is a prefix of its array: the array's length is the slice's capacity. */
  class Bytes {
    const p: BytesPool
    var ri: nat
    var b: array<Byte>
    var len: nat

    constructor (p: BytesPool, n: nat, c: nat)
      requires n <= c
      ensures this.p == p && ri == 0 && len == n && b.Length == c && fresh(b)
      ensures Contents() == seq(n, _ => 0)
    {
      this.p := p;
      ri, len, b := 0, n, new Byte[c](_ => 0);
    }

    ghost predicate Shaped()
      reads this
    {
      ri <= len <= b.Length
    }

    function Cap(): nat
      reads this
    {
      b.Length
    }

    ghost function Contents(): seq<Byte>
      reads this, b
      requires len <= b.Length
    {
      b[..len]
    }

    /** Appends: in place while the capacity lasts, else into a larger array of any size. */
    method Write(data: seq<Byte>) returns (n: nat)
      requires p.Valid() && this in p.live
      modifies this`b, this`len, b
      ensures p.Valid() && n == |data|
      ensures Contents() == old(Contents()) + data
      ensures fresh(b) || b == old(b)
    {
      if len + |data| > b.Length {
        Grow(len + |data|);
      }
      CopyIn(data);
      Extend(|data|);
      return |data|;
    }

    method Extend(k: nat)
      requires p.Valid() && this in p.live && len + k <= b.Length
      modifies this`len
      ensures p.Valid() && len == old(len) + k
    {
      len := len + k;
    }

    /** Copies data to just behind the contents. */
    method CopyIn(data: seq<Byte>)
      requires len + |data| <= b.Length
      modifies b
      ensures b[..len + |data|] == old(b[..len]) + data
    {
      var i := 0;
      while i < |data|
        invariant 0 <= i <= |data| && b[..len + i] == old(b[..len]) + data[..i]
      {
        b[len + i] := data[i];
        i := i + 1;
      }
      assert data[..|data|] == data;
    }

    /** Moves the contents to a new array of at least capacity c. */
    method Grow(c: nat)
      requires p.Valid() && this in p.live && len <= c
      modifies this`b
      ensures p.Valid() && fresh(b) && b.Length >= c && Contents() == old(Contents())
    {
      var grown := CopyOut(c);
      b := grown;
    }

    method CopyOut(c: nat) returns (grown: array<Byte>)
      requires Shaped() && len <= c
      ensures fresh(grown) && grown.Length >= c && grown[..len] == b[..len]
    {
      var extra: int := *;
      if extra < 0 {
        extra := 0;
      }
      grown := new Byte[c + extra];
      var i := 0;
      while i < len
        invariant 0 <= i <= len && grown[..i] == b[..i]
      {
        grown[i] := b[i];
        i := i + 1;
      }
    }

    /** Reads up to m bytes from the read index. The end is reported one byte early. */
    method Read(m: nat) returns (data: seq<Byte>, eof: bool)
      requires p.Valid() && this in p.live
      modifies this`ri
      ensures p.Valid()
      ensures (data, eof, ri) == ReadFrom(Contents(), old(ri), m)
    {
      if ri >= len - 1 {
        return [], true;
      }
      var n := if m < len - ri then m else len - ri;
      data, eof := b[ri..ri + n], false;
      ri := ri + n;
      assert data == b[..len][old(ri)..ri];
    }

    /** Empties the buffer and offers it to the pool for reuse. */
    method Release()
      requires p.Valid() && this in p.live
      modifies this`ri, this`len, p
      ensures p.Valid() && p.live == old(p.live) - {this}
      ensures p.pooled == old(p.pooled) + if Cap() in p.pool then {this} else {}
    {
      ri := 0;
      len := 0;
      p.Put(this);
    }
  }

  /** What one Read does: the bytes it copies, whether it reports the end, the read index after. */
  function ReadFrom(s: seq<Byte>, ri: nat, m: nat): (r: (seq<Byte>, bool, nat))
    requires ri <= |s|
    ensures ri <= r.2 <= |s| && r.0 == s[ri..r.2]
    ensures m > 0 && !r.1 ==> ri < r.2
  {
    if ri >= |s| - 1 then ([], true, ri)
    else
      var n := if m < |s| - ri then m else |s| - ri;
      (s[ri..ri + n], false, ri + n)
  }

  /** What a client that reads m bytes at a time until the end is reported gets to see. */
  function ReadAll(s: seq<Byte>, ri: nat, m: nat): seq<Byte>
    requires ri <= |s| && m > 0
    decreases |s| - ri
  {
    var r := ReadFrom(s, ri, m);
    if r.1 then [] else r.0 + ReadAll(s, r.2, m)
  }

  /** Reading everything loses the last byte exactly when the bytes before it fill whole reads. */
  lemma {:induction false} ReadAllMayLoseTheLastByte(s: seq<Byte>, ri: nat, m: nat)
    requires ri < |s| && m > 0
    ensures ReadAll(s, ri, m) == if (|s| - 1 - ri) % m == 0 then s[ri..|s| - 1] else s[ri..]
    decreases |s| - ri
  {
    if ri < |s| - 1 {
      if m < |s| - ri {
        ReadAllMayLoseTheLastByte(s, ri + m, m);
        ModOfMinus(|s| - 1 - ri, m);
        assert s[ri..ri + m] + s[ri + m..] == s[ri..];
        assert s[ri..ri + m] + s[ri + m..|s| - 1] == s[ri..|s| - 1];
      } else {
        assert 0 < |s| - 1 - ri < m;
        ModOfSmall(|s| - 1 - ri, m);
        assert ReadAll(s, |s|, m) == [];
      }
    } else {
      ModOfSmall(0, m);
    }
  }

  lemma ModOfMinus(a: int, m: int)
    requires m > 0
    ensures (a - m) % m == a % m
  {
    var q := a / m;
    assert a - m == m * (q - 1) + a % m;
    ModIs(a - m, m, q - 1, a % m);
  }

  lemma ModOfSmall(a: int, m: int)
    requires 0 <= a < m
    ensures a % m == a
  {
  }

  lemma ModIs(a: int, m: int, q: int, r: int)
    requires m > 0 && a == m * q + r && 0 <= r < m
    ensures a % m == r
  {
    var d := a / m - q;
    assert a % m == r - m * d;
    MultipleBound(m, d);
  }

  lemma MultipleBound(m: int, d: int)
    requires m > 0
    ensures d > 0 ==> m * d >= m
    ensures d < 0 ==> m * d <= -m
  {
  }

  class BytesPool {
    var pool: map<int, set<Bytes>>   // the released buffers of each size class
    ghost var pooled: set<Bytes>     // all of them
    ghost var live: set<Bytes>       // the buffers that clients hold

    static ghost predicate OfSize(s: set<Bytes>, k: int)
      reads s
    {
      forall bb :: bb in s ==> bb.Cap() == k
    }

    /** The released buffers of the class of size k are empty and have exactly that capacity. */
    ghost predicate Classes()
      reads this, pooled
    {
      && (forall k :: k in pool ==> pool[k] <= pooled && OfSize(pool[k], k))
      && (forall bb :: bb in pooled ==> bb.Cap() in pool && bb in pool[bb.Cap()] && bb.len == 0 && bb.ri == 0)
    }

    /** No two buffers share memory. */
    static ghost predicate Apart(s: set<Bytes>)
      reads s`b
    {
      forall bb, cc :: bb in s && cc in s && bb != cc ==> bb.b != cc.b
    }

    /** No released buffer is held by a client or shares memory with another buffer. */
    ghost predicate Valid()
      reads this, pooled, live
    {
      && Classes()
      && pooled !! live
      && Apart(pooled + live)
      && forall bb :: bb in pooled + live ==> bb.p == this && bb.Shaped()
    }

    constructor (sizes: seq<int>)
      ensures Valid() && live == {} && pooled == {} && pool.Keys == set n | n in sizes
    {
      pool := map n | n in sizes :: {};
      pooled, live := {}, {};
    }

    /** NewBytesPool. Its precondition is that the loop over the size classes ends. */
    static method New(minSize: int, maxSize: int) returns (r: Result<BytesPool>)
      requires IsInt64(minSize) && IsInt64(maxSize)
      requires minSize <= MAX_INT_HEAD_BIT ==> Stops(Start(minSize), maxSize)
      ensures r.Panic? <==> minSize > MAX_INT_HEAD_BIT
      ensures r.Ok? ==> fresh(r.value) && r.value.Valid() && r.value.live == {} && r.value.pooled == {}
      ensures r.Ok? && 0 <= minSize && maxSize < MAX_INT_HEAD_BIT ==>
                forall p :: p in r.value.pool <==> IsPow2(p) && minSize <= p <= maxSize
    {
      var sizes := LogarithmicRange(minSize, maxSize);
      if sizes.Panic? {
        return Panic;
      }
      var p := new BytesPool(sizes.value);
      if 0 <= minSize && maxSize < MAX_INT_HEAD_BIT {
        RangeIsThePowersOfTwo(sizes.value, minSize, maxSize);
      }
      return Ok(p);
    }

    /** A buffer of length n and at least capacity c that nobody else holds, reused or new. */
    method Get(n: int, c: int) returns (r: Result<Bytes>)
      requires Valid() && IsInt64(n) && IsInt64(c)
      modifies this, pooled`len
      ensures Valid() && pool.Keys == old(pool.Keys)
      ensures r.Panic? <==> n > c || c > MAX_INT_HEAD_BIT || n < 0
      ensures r.Panic? ==> live == old(live) && pooled <= old(pooled)
      ensures r.Ok? ==> r.value.len == n && c <= r.value.Cap() && r.value.ri == 0 && r.value.p == this
      ensures r.Ok? ==> Ceil(c) in pool ==> r.value.Cap() == Ceil(c)
      ensures r.Ok? ==> live == old(live) + {r.value} && r.value !in old(live) && pooled == old(pooled) - {r.value}
      ensures r.Ok? ==> r.value in old(pooled) || (fresh(r.value) && r.value.Contents() == seq(n, _ => 0))
    {
      if n > c {
        return Panic;
      }
      var s := CeilToPowerOfTwo(c);
      if s.Panic? {
        return Panic;
      }
      var size := s.value;
      if size in pool {
        // sync.Pool may come back empty-handed even when it holds something
        var reuse: bool := *;
        if reuse && pool[size] != {} {
          var bb :| bb in pool[size];
          TakeOut(size, bb);
          if n < 0 {
            return Panic;
          }
          HandOut(bb, n);
          return Ok(bb);
        }
        r := MakeNew(n, size);
        return;
      }
      r := MakeNew(n, c);
    }

    /** newBytes; making a slice of negative length panics. */
    method MakeNew(n: int, c: int) returns (r: Result<Bytes>)
      requires Valid() && n <= c
      modifies this`live
      ensures Valid()
      ensures r.Panic? <==> n < 0
      ensures r.Panic? ==> live == old(live)
      ensures r.Ok? ==> fresh(r.value) && r.value.len == n && r.value.Cap() == c && r.value.ri == 0 && r.value.p == this
      ensures r.Ok? ==> live == old(live) + {r.value} && r.value.Contents() == seq(n, _ => 0)
    {
      if n < 0 {
        return Panic;
      }
      var bb := new Bytes(this, n, c);
      live := live + {bb};
      return Ok(bb);
    }

    /** Takes a buffer out of its class. */
    method TakeOut(size: int, bb: Bytes)
      requires Valid() && size in pool && bb in pool[size]
      modifies this`pool, this`pooled
      ensures bb.p == this && bb.Cap() == size && bb.ri == 0 && bb !in live
      ensures forall cc :: cc in pooled + live ==> cc.b != bb.b
      ensures Valid() && pool.Keys == old(pool.Keys) && pooled == old(pooled) - {bb}
    {
      pool, pooled := pool[size := pool[size] - {bb}], pooled - {bb};
    }

    /** Gives a buffer that is in no class to a client. */
    method HandOut(bb: Bytes, n: nat)
      requires Valid() && bb !in pooled && bb !in live && bb.p == this && bb.ri == 0 && n <= bb.Cap()
      requires forall cc :: cc in pooled + live ==> cc.b != bb.b
      modifies this`live, bb`len
      ensures Valid() && live == old(live) + {bb} && bb.len == n
    {
      bb.len := n;
      live := live + {bb};
    }

    /** Takes back a buffer that was reset, for reuse if its capacity is that of a class. */
    method Put(bb: Bytes)
      requires bb in live && bb.ri == 0 && bb.len == 0
      requires Valid()
      modifies this
      ensures Valid() && live == old(live) - {bb} && pool.Keys == old(pool.Keys)
      ensures pooled == old(pooled) + if bb.Cap() in pool then {bb} else {}
    {
      if bb.Cap() in pool {
        pool, pooled := pool[bb.Cap() := pool[bb.Cap()] + {bb}], pooled + {bb};
      }
      live := live - {bb};
    }
  }
}
