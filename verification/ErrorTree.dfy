/** Error values and what callers observe of them (rony/errs, flow/failure_converter.go). */
module ErrorTree {

  import opened Wrappers

  datatype Json =
    | Null
    | Num(n: int)
    | Str(s: string)
    | Arr(items: seq<Json>)
    | Obj(fields: seq<Field>)

  datatype Field = Field(name: string, value: Json)

  /** Metadata of an error: absent, a map that is encoded as a JSON object (native if it holds
      values of other types than decoding that object yields), or a map that has no encoding. */
  datatype Meta = NoMeta | Encodable(native: bool, fields: seq<Field>) | Unencodable(reason: string)

  /** An error: an `*errs.Error`; an error of any other type, with what it unwraps to; or the
      error a failure converter makes of a wrapper and its converted cause. */
  datatype Err =
    | Errs(code: int, codeName: string, item: string, details: Option<string>, meta: Meta, underlying: Option<Err>)
    | Opaque(typ: string, msg: string, wraps: Wraps)
    | Chained(outer: Err, cause: Err)

  /** No Unwrap method, one with a single result, or one with a list. */
  datatype Wraps = Nothing | One(err: Option<Err>) | Many(errs: seq<Option<Err>>)

  const OK := 0
  const UNKNOWN := 2

  predicate ValidCode(code: int) {
    0 <= code <= 16
  }

  /** The name of a valid code; indexing the table with any other panics. */
  function CodeName(code: int): string {
    if !ValidCode(code) then "" else
    ["ok", "canceled", "unknown", "invalid_argument", "deadline_exceeded", "not_found", "already_exists",
     "permission_denied", "resource_exhausted", "failed_precondition", "aborted", "out_of_range", "unimplemented",
     "internal", "unavailable", "data_loss", "unauthenticated"][code]
  }

  /** The first `*errs.Error` that errors.As finds. */
  function First(e: Err): (r: Option<Err>)
    ensures r.Some? ==> r.value.Errs?
    decreases e, 0
  {
    match e
    case Errs(_, _, _, _, _, _) => Some(e)
    case Opaque(_, _, Nothing) => None
    case Opaque(_, _, One(u)) => FirstIn(u)
    case Opaque(_, _, Many(us)) => FirstOf(us)
    case Chained(outer, cause) =>
      var f := First(outer);
      if f.Some? then f else First(cause)
  }

  function FirstIn(u: Option<Err>): (r: Option<Err>)
    ensures r.Some? ==> r.value.Errs?
    decreases u, 0
  {
    if u == None then None else First(u.value)
  }

  function FirstOf(us: seq<Option<Err>>): (r: Option<Err>)
    ensures r.Some? ==> r.value.Errs?
    decreases us, 1
  {
    if us == [] then None
    else
      var f := FirstIn(us[0]);
      if f.Some? then f else FirstOf(us[1..])
  }

  /** errs.Code. */
  function Code(e: Option<Err>): int {
    if e == None then OK
    else if First(e.value).Some? then First(e.value).value.code
    else UNKNOWN
  }

  /** Every `*errs.Error` errors.As can reach, in its order, by code and message. */
  function Reached(e: Err): seq<(int, string)>
    decreases e, 0
  {
    match e
    case Errs(code, _, item, _, _, u) => [(code, item)] + ReachedIn(u)
    case Opaque(_, _, Nothing) => []
    case Opaque(_, _, One(u)) => ReachedIn(u)
    case Opaque(_, _, Many(us)) => ReachedOf(us)
    case Chained(outer, cause) => Reached(outer) + Reached(cause)
  }

  function ReachedIn(u: Option<Err>): seq<(int, string)>
    decreases u, 0
  {
    if u == None then [] else Reached(u.value)
  }

  function ReachedOf(us: seq<Option<Err>>): seq<(int, string)>
    decreases us, 1
  {
    if us == [] then [] else ReachedIn(us[0]) + ReachedOf(us[1..])
  }

  /** The number of errors in a tree. */
  function Size(e: Err): (n: nat)
    ensures n > 0
    decreases e, 0
  {
    match e
    case Errs(_, _, _, _, _, u) => 1 + SizeIn(u)
    case Opaque(_, _, Nothing) => 1
    case Opaque(_, _, One(u)) => 1 + SizeIn(u)
    case Opaque(_, _, Many(us)) => 1 + SizeOf(us)
    case Chained(outer, cause) => 1 + Size(outer) + Size(cause)
  }

  function SizeIn(u: Option<Err>): nat
    decreases u, 0
  {
    if u == None then 0 else Size(u.value)
  }

  function SizeOf(us: seq<Option<Err>>): nat
    decreases us, 1
  {
    if us == [] then 0 else SizeIn(us[0]) + SizeOf(us[1..])
  }

  lemma {:induction false} FirstIsNoLarger(e: Err)
    ensures First(e).Some? ==> Size(First(e).value) <= Size(e)
    decreases Size(e), 0
  {
    match e {
      case Errs(_, _, _, _, _, _) =>
      case Opaque(_, _, Nothing) =>
      case Opaque(_, _, One(u)) => if u.Some? { FirstIsNoLarger(u.value); }
      case Opaque(_, _, Many(us)) => FirstOfIsNoLarger(us);
      case Chained(outer, cause) =>
        FirstIsNoLarger(outer);
        FirstIsNoLarger(cause);
    }
  }

  lemma {:induction false} FirstOfIsNoLarger(us: seq<Option<Err>>)
    ensures FirstOf(us).Some? ==> Size(FirstOf(us).value) <= SizeOf(us)
    decreases SizeOf(us), 1, |us|
  {
    if us != [] {
      if us[0].Some? {
        assert SizeOf(us) == SizeIn(us[0]) + SizeOf(us[1..]);
        FirstIsNoLarger(us[0].value);
      }
      FirstOfIsNoLarger(us[1..]);
    }
  }

  /** The Error method. */
  function Text(e: Err): string
    decreases Size(e), 1
  {
    match e
    case Errs(code, _, _, _, _, _) =>
      (if code == UNKNOWN then "unknown code: " else CodeName(code) + ": ") + Message(e)
    case Opaque(_, msg, _) => msg
    case Chained(outer, cause) => Text(outer) + ": " + Text(cause)
  }

  /** ErrorMessage: the non-empty messages from here on, joined. */
  function Message(e: Err): string
    requires e.Errs?
    decreases Size(e), 0
  {
    Join([e.item] + Messages(e.underlying))
  }

  /** The messages of the errors ErrorMessage visits. */
  function Messages(next: Option<Err>): seq<string>
    decreases SizeIn(next), 2
  {
    if next == None then []
    else
      FirstIsNoLarger(next.value);
      var f := First(next.value);
      if f.Some? then [f.value.item] + Messages(f.value.underlying) else [Text(next.value)]
  }

  /** Strings joined by ": ", leaving out empty ones. */
  function Join(ss: seq<string>): string {
    if ss == [] then ""
    else
      var last, front := ss[|ss| - 1], Join(ss[..|ss| - 1]);
      if last == "" then front else if front == "" then last else front + ": " + last
  }

  /** Joining leaves out empty strings and puts a colon and a space between any two others. */
  lemma {:induction false} JoinOfParts(a: seq<string>, b: seq<string>)
    ensures Join(a + b) == if Join(a) == "" then Join(b) else if Join(b) == "" then Join(a) else Join(a) + ": " + Join(b)
    ensures |a| == 1 ==> Join(a) == a[0]
    decreases |b|
  {
    if b == [] {
      assert a + b == a;
    } else {
      var n := |b| - 1;
      JoinOfParts(a, b[..n]);
      assert (a + b)[..|a| + n] == a + b[..n] && (a + b)[|a| + n] == b[n];
      RegroupFive(Join(a), ": ", Join(b[..n]), ": ", b[n]);
    }
  }

  /** The message of an error is its own, and after it the message of the first `*errs.Error` below
      it, or the text of what is below it if there is none. */
  lemma MessageOfChain(e: Err)
    requires e.Errs?
    ensures e.underlying == None ==> Message(e) == e.item
    ensures e.underlying.Some? ==>
              var f := First(e.underlying.value);
              var below := if f.Some? then Message(f.value) else Text(e.underlying.value);
              Message(e) == if e.item == "" then below else if below == "" then e.item else e.item + ": " + below
  {
    JoinOfParts([e.item], Messages(e.underlying));
    JoinOfParts([e.item], []);
    assert [e.item] + [] == [e.item];
    if e.underlying.Some? {
      JoinOfParts([Text(e.underlying.value)], []);
      assert [Text(e.underlying.value)] + [] == [Text(e.underlying.value)];
    }
  }

  /** The loop that builds the message. */
  method ErrorMessage(e: Err) returns (b: string)
    requires e.Errs?
    ensures b == Message(e)
  {
    if e.underlying == None {
      assert Join([e.item]) == e.item;
      return e.item;
    }
    b := e.item;
    var next := e.underlying;
    ghost var done := [e.item];
    assert done + Messages(next) == [e.item] + Messages(e.underlying);
    while next.Some?
      invariant b == Join(done)
      invariant done + Messages(next) == [e.item] + Messages(e.underlying)
      decreases SizeIn(next)
    {
      ghost var rest := Messages(next);
      FirstIsNoLarger(next.value);
      var msg;
      var found := First(next.value);
      if found.Some? {
        msg := found.value.item;
        next := found.value.underlying;
      } else {
        msg := Text(next.value);
        next := None;
      }
      if |b| > 0 && msg != "" {
        b := b + ": ";
      }
      b := b + msg;
      assert rest == [msg] + Messages(next);
      assert (done + [msg])[..|done|] == done;
      done := done + [msg];
    }
    assert done + [] == done;
  }
}
