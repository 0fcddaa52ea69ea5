/** Simple resource locators: storage, path and identifier (kit/utils/srl/srl.go). */
module Srl {

  const STORAGE := 0
  const PATH := 1
  const ID := 2
  const LENGTH := 3

  /** An array of three strings. */
  type SRL = q: seq<string> | |q| == LENGTH witness ["", "", ""]

  const EMPTY: SRL := ["", "", ""]

  // Text.

  /** The text of a locator. */
  function Text(q: SRL): string {
    (if q[STORAGE] == "" then "" else q[STORAGE] + ":") + Locator(q)
  }

  /** The text from the path on. */
  function Locator(q: SRL): string {
    q[PATH] + if q[ID] == "" then "" else "@" + q[ID]
  }

  /** The String method: one part after the other, each with its glue. */
  method String(q: SRL) returns (sb: string)
    ensures sb == Text(q)
  {
    sb := "";
    var i := 0;
    while i < LENGTH
      invariant 0 <= i <= LENGTH
      invariant i == 0 ==> sb == ""
      invariant i == 1 ==> sb == if q[STORAGE] == "" then "" else q[STORAGE] + ":"
      invariant i == 2 ==> sb == (if q[STORAGE] == "" then "" else q[STORAGE] + ":") + q[PATH]
      invariant i == 3 ==> sb == Text(q)
    {
      var pglue, sglue := "", "";
      if i == STORAGE {
        sglue := ":";
      } else if i == ID {
        pglue := "@";
      }
      var p := q[i];
      if |p| > 0 {
        sb := sb + pglue + p + sglue;
      }
      i := i + 1;
    }
  }

  predicate IsSpace(c: char) {
    c == ' ' || c == '\t' || c == '\n' || c == '\r' || c == '\U{c}'
  }

  predicate EndsStorage(c: char) { c == ':' || IsSpace(c) }

  predicate EndsPath(c: char) { c == '@' || IsSpace(c) }

  predicate EndsId(c: char) { c == '\n' }

  /** The length of the longest prefix without a character that ends it. */
  function Run(s: string, ends: char -> bool): (n: nat)
    ensures n <= |s| && (forall i :: 0 <= i < n ==> !ends(s[i])) && (n < |s| ==> ends(s[n]))
  {
    if s == "" || ends(s[0]) then 0 else 1 + Run(s[1..], ends)
  }

  /** What the pattern's groups match, storage being optional and ended by a colon. */
  function Groups(str: string): (string, string, string) {
    var n := Run(str, EndsStorage);
    if n < |str| && str[n] == ':' then (str[..n], PathOf(str[n + 1..]), IdOf(str[n + 1..]))
    else ("", PathOf(str), IdOf(str))
  }

  function PathOf(s: string): string {
    s[..Run(s, EndsPath)]
  }

  function IdOf(s: string): string {
    var id := WithoutAt(s[Run(s, EndsPath)..]);
    id[..Run(id, EndsId)]
  }

  /** An identifier without the glue before it. */
  function WithoutAt(s: string): string {
    if s != "" && s[0] == '@' then s[1..] else s
  }

  function Parsed(str: string): SRL {
    var g := Groups(str);
    [g.0, g.1, g.2]
  }

  /** Parse: the submatches, from the last one back. */
  method Parse(str: string) returns (q: SRL)
    ensures q == Parsed(str)
  {
    q := EMPTY;
    var g := Groups(str);
    var pp := [str, g.0, g.1, g.2];
    var i := LENGTH;
    while i > 0
      invariant 0 <= i <= LENGTH
      invariant forall j :: i <= j < LENGTH ==> q[j] == pp[j + 1]
    {
      if |pp| > i {
        q := q[i - 1 := pp[i]];
      }
      i := i - 1;
    }
    assert q == [q[0], q[1], q[2]];
  }

  predicate Without(s: string, ends: char -> bool) {
    forall i :: 0 <= i < |s| ==> !ends(s[i])
  }

  /** A colon comes before any white space. */
  predicate StartsLikeStorage(s: string) {
    var n := Run(s, EndsStorage);
    n < |s| && s[n] == ':'
  }

  /** Parsing the text of a locator yields the locator exactly when the storage has no colon or
      white space, the path no @ or white space, the identifier no line feed, and the text of a
      locator without storage does not start as if it had one. */
  predicate Readable(q: SRL) {
    && Without(q[STORAGE], EndsStorage)
    && Without(q[PATH], EndsPath)
    && Without(q[ID], EndsId)
    && (q[STORAGE] == "" ==> !StartsLikeStorage(Locator(q)))
  }

  lemma {:induction false} RunOver(a: string, b: string, ends: char -> bool)
    requires Without(a, ends) && (b == "" || ends(b[0]))
    ensures Run(a + b, ends) == |a|
    decreases |a|
  {
    if a == "" {
      assert a + b == b;
    } else {
      assert (a + b)[1..] == a[1..] + b;
      RunOver(a[1..], b, ends);
    }
  }

  lemma LocatorIsRead(q: SRL)
    requires Without(q[PATH], EndsPath) && Without(q[ID], EndsId)
    ensures PathOf(Locator(q)) == q[PATH] && IdOf(Locator(q)) == q[ID]
  {
    var rest := if q[ID] == "" then "" else "@" + q[ID];
    RunOver(q[PATH], rest, EndsPath);
    assert Locator(q)[|q[PATH]|..] == rest;
    RunOver(q[ID], "", EndsId);
    assert q[ID] + "" == q[ID];
    if q[ID] != "" {
      assert rest[1..] == q[ID];
    }
  }

  lemma ReadableIsRead(q: SRL)
    requires Readable(q)
    ensures Groups(Text(q)) == (q[STORAGE], q[PATH], q[ID])
  {
    var s, l := Text(q), Locator(q);
    LocatorIsRead(q);
    if q[STORAGE] != "" {
      assert s == q[STORAGE] + (":" + l);
      RunOver(q[STORAGE], ":" + l, EndsStorage);
      assert s[|q[STORAGE]|] == ':' && s[..|q[STORAGE]|] == q[STORAGE] && s[|q[STORAGE]| + 1..] == l;
    } else {
      assert s == l;
    }
  }

  /** Whatever is parsed, the parts do not have the characters that end them. */
  lemma PartsAreClean(str: string)
    ensures Without(Groups(str).0, EndsStorage) && Without(Groups(str).1, EndsPath) && Without(Groups(str).2, EndsId)
  {
  }

  /** Parsing any text splits it: the storage and its colon, if a colon comes before any white space;
      the path, up to the first @ or white space; the rest, without an @ at its front, up to a line
      feed. */
  lemma ParseSplitsTheText(str: string) returns (tail: string, rest: string)
    ensures var q := Parsed(str);
            && (if StartsLikeStorage(str) then str == q[STORAGE] + (":" + (q[PATH] + tail))
                else q[STORAGE] == "" && str == q[PATH] + tail)
            && (tail == "" || tail[0] == '@' || IsSpace(tail[0]))
            && (if tail != "" && tail[0] == '@' then tail[1..] else tail) == q[ID] + rest
            && (rest == "" || rest[0] == '\n')
            && Without(q[STORAGE], EndsStorage) && Without(q[PATH], EndsPath) && Without(q[ID], EndsId)
  {
    PartsAreClean(str);
    var locator := StorageSplits(str);
    tail, rest := LocatorSplits(locator);
  }

  lemma StorageSplits(str: string) returns (locator: string)
    ensures var g := Groups(str);
            && g.1 == PathOf(locator) && g.2 == IdOf(locator)
            && (if StartsLikeStorage(str) then str == g.0 + (":" + locator) else g.0 == "" && str == locator)
  {
    if StartsLikeStorage(str) {
      var rest := Cut(str, EndsStorage);
      locator := rest[1..];
      assert rest == ":" + locator;
    } else {
      locator := str;
    }
  }

  lemma LocatorSplits(s: string) returns (tail: string, rest: string)
    ensures s == PathOf(s) + tail && (tail == "" || tail[0] == '@' || IsSpace(tail[0]))
    ensures WithoutAt(tail) == IdOf(s) + rest
    ensures rest == "" || rest[0] == '\n'
  {
    tail := Cut(s, EndsPath);
    rest := Cut(WithoutAt(tail), EndsId);
  }

  lemma Cut(s: string, ends: char -> bool) returns (rest: string)
    ensures rest == s[Run(s, ends)..] && s == s[..Run(s, ends)] + rest && (rest == "" || ends(rest[0]))
  {
    rest := s[Run(s, ends)..];
  }

  lemma ParseOfText(q: SRL)
    ensures Parsed(Text(q)) == q <==> Readable(q)
  {
    ParsedIsGroups(q);
    if Readable(q) {
      ReadableIsRead(q);
    } else {
      UnreadableIsNotRead(q);
    }
  }

  lemma ParsedIsGroups(q: SRL)
    ensures Parsed(Text(q)) == q <==> Groups(Text(q)) == (q[STORAGE], q[PATH], q[ID])
  {
    assert q == [q[0], q[1], q[2]];
  }

  lemma UnreadableIsNotRead(q: SRL)
    requires !Readable(q)
    ensures Groups(Text(q)) != (q[STORAGE], q[PATH], q[ID])
  {
    PartsAreClean(Text(q));
    if q[STORAGE] == "" && StartsLikeStorage(Locator(q)) {
      EmptyStorageIsLost(q);
    }
  }

  /** A locator without storage whose text starts like one is not read back: at best its path has
      lost a leading colon. */
  lemma EmptyStorageIsLost(q: SRL)
    requires q[STORAGE] == "" && StartsLikeStorage(Locator(q))
    ensures Groups(Text(q)) != (q[STORAGE], q[PATH], q[ID])
  {
    var s, n := Text(q), Run(Text(q), EndsStorage);
    assert s == Locator(q);
    if n == 0 && Without(q[PATH], EndsPath) {
      assert q[PATH] != "" && q[PATH][0] == ':';
      LeadingColonIsLost(q);
    }
  }

  lemma LeadingColonIsLost(q: SRL)
    requires q[PATH] != "" && Without(q[PATH], EndsPath)
    ensures PathOf(Locator(q)[1..]) != q[PATH]
  {
    var glued := if q[ID] == "" then "" else "@" + q[ID];
    assert Locator(q)[1..] == q[PATH][1..] + glued;
    RunOver(q[PATH][1..], glued, EndsPath);
  }

  // Combining.

  /** Each part of the result is made from the parts of the two. */
  method Mix(q: SRL, src: SRL, fn: (string, string, int) -> string) returns (r: SRL)
    ensures forall i :: 0 <= i < LENGTH ==> r[i] == fn(q[i], src[i], i)
  {
    r := q;
    var i := 0;
    while i < LENGTH
      invariant 0 <= i <= LENGTH
      invariant forall k :: 0 <= k < LENGTH ==> r[k] == if k < i then fn(q[k], src[k], k) else q[k]
    {
      r := r[i := fn(r[i], src[i], i)];
      i := i + 1;
    }
  }

  /** Paths are joined with a colon if there are two. */
  function Joined(a: string, b: string): string {
    if b == "" then a else if a == "" then b else a + ":" + b
  }

  function Later(a: string, b: string): string {
    if b == "" then a else b
  }

  function Appended(q: SRL, src: SRL): SRL {
    [Later(q[STORAGE], src[STORAGE]), Joined(q[PATH], src[PATH]), Later(q[ID], src[ID])]
  }

  function Merged(q: SRL, src: SRL): SRL {
    [Later(q[STORAGE], src[STORAGE]), Later(q[PATH], src[PATH]), Later(q[ID], src[ID])]
  }

  method Append(q: SRL, src: SRL) returns (r: SRL)
    ensures r == Appended(q, src)
  {
    r := Mix(q, src, (qi: string, si: string, i: int) =>
      if |si| == 0 then qi else if PATH == i && |qi| > 0 then qi + ":" + si else si);
  }

  method Merge(q: SRL, src: SRL) returns (r: SRL)
    ensures r == Merged(q, src)
  {
    r := Mix(q, src, (qi: string, si: string, i: int) => if |si| == 0 then qi else si);
  }

  method Replace(q: SRL, src: SRL) returns (r: SRL)
    ensures r == src
  {
    r := Mix(q, src, (qi: string, si: string, i: int) => si);
  }

  lemma JoinedIsAssociative(a: string, b: string, c: string)
    ensures Joined(Joined(a, b), c) == Joined(a, Joined(b, c))
  {
    if a != "" && b != "" && c != "" {
      assert (a + ":" + b) + ":" + c == a + ":" + (b + ":" + c);
    }
  }

  /** Append and Merge are associative with the empty locator as identity; Merge is idempotent. */
  lemma CombiningIsAMonoid(p: SRL, q: SRL, r: SRL)
    ensures Appended(Appended(p, q), r) == Appended(p, Appended(q, r))
    ensures Appended(p, EMPTY) == p == Appended(EMPTY, p)
    ensures Merged(Merged(p, q), r) == Merged(p, Merged(q, r))
    ensures Merged(p, EMPTY) == p == Merged(EMPTY, p)
    ensures Merged(p, p) == p
  {
    JoinedIsAssociative(p[PATH], q[PATH], r[PATH]);
    assert p == [p[0], p[1], p[2]];
  }

  /** A part that the second locator has wins, and one that it lacks leaves the first one's; only
      two paths are both kept when appending. */
  lemma LaterPartWins(p: SRL, q: SRL, i: nat)
    requires i < LENGTH
    ensures q[i] == "" ==> Appended(p, q)[i] == p[i] == Merged(p, q)[i]
    ensures q[i] != "" ==> Merged(p, q)[i] == q[i]
    ensures q[i] != "" && (i != PATH || p[i] == "") ==> Appended(p, q)[i] == q[i]
    ensures q[i] != "" && i == PATH && p[i] != "" ==> Appended(p, q)[i] == p[i] + ":" + q[i]
  {
    assert i == STORAGE || i == PATH || i == ID;
  }

  /** Appending keeps locators readable as long as one of them has a storage. */
  lemma AppendStaysReadable(p: SRL, q: SRL)
    requires Readable(p) && Readable(q) && (p[STORAGE] != "" || q[STORAGE] != "")
    ensures Readable(Appended(p, q)) && Parsed(Text(Appended(p, q))) == Appended(p, q)
  {
    JoinedIsClean(p, q);
    ParseOfText(Appended(p, q));
  }

  lemma JoinedIsClean(p: SRL, q: SRL)
    requires Readable(p) && Readable(q) && (p[STORAGE] != "" || q[STORAGE] != "")
    ensures Readable(Appended(p, q))
  {
    JoinedWithout(p[PATH], q[PATH]);
  }

  lemma JoinedWithout(a: string, b: string)
    requires Without(a, EndsPath) && Without(b, EndsPath)
    ensures Without(Joined(a, b), EndsPath)
  {
  }

  /** Without a storage, a joined path is never read back: its first part is taken for one. */
  lemma JoinedPathNeedsStorage(p: SRL, q: SRL)
    requires Readable(p) && Readable(q) && p[STORAGE] == "" && q[STORAGE] == "" && p[PATH] != "" && q[PATH] != ""
    ensures Parsed(Text(Appended(p, q))) != Appended(p, q)
  {
    var a := Appended(p, q);
    var s := Locator(a);
    var tail := if q[ID] == "" && p[ID] == "" then "" else "@" + a[ID];
    assert s == p[PATH] + ":" + q[PATH] + tail;
    assert Without(p[PATH], EndsStorage) by {
      if i :| 0 <= i < |p[PATH]| && p[PATH][i] == ':' {
        FirstColon(p, i);
      }
    }
    assert s == p[PATH] + (":" + (q[PATH] + tail));
    RunOver(p[PATH], ":" + (q[PATH] + tail), EndsStorage);
    ParseOfText(a);
  }

  lemma FirstColon(p: SRL, i: nat)
    requires p[STORAGE] == "" && Without(p[PATH], EndsPath) && i < |p[PATH]| && p[PATH][i] == ':'
    ensures StartsLikeStorage(Locator(p))
  {
    var s := Locator(p);
    var n := Run(s, EndsStorage);
    assert s[i] == p[PATH][i];
    assert n <= i;
    assert s[n] == p[PATH][n] && !EndsPath(p[PATH][n]);
  }
}
