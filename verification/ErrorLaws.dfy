/** What survives the error codec: the tree up to its normal form, and what callers see of it. */
module ErrorLaws {
  import opened Wrappers
  import opened ErrorTree
  import opened ErrorText
  import opened ErrorCodec
  import opened ErrorDecoder

  /** The normal form: details and unencodable metadata are dropped, the code name is that of the
      code, and an error of another type becomes a fallback error with its message and children. */
  function Normal(e: Err): Err
    decreases e, 0
  {
    match e
    case Errs(code, _, item, _, meta, u) => Errs(code, CodeName(code), item, None, NormalMeta(meta), NormalIn(u))
    case Opaque(_, msg, Nothing) => Leaf(msg)
    case Opaque(_, msg, One(u)) =>
      if u == None then Leaf(msg) else Opaque("*fallbackSingleWrapErr", msg, One(NormalIn(u)))
    case Opaque(_, msg, Many(us)) =>
      if us == [] then Leaf(msg) else Opaque("*fallbackMultiWrapErr", msg, Many(NormalAll(us)))
    case Chained(_, cause) => Opaque("*fallbackSingleWrapErr", Text(e), One(Some(Normal(cause))))
  }

  function Leaf(msg: string): Err {
    Opaque("*errorString", msg, Nothing)
  }

  function NormalIn(u: Option<Err>): Option<Err>
    decreases u, 0
  {
    if u == None then None else Some(Normal(u.value))
  }

  function NormalAll(us: seq<Option<Err>>): (r: seq<Option<Err>>)
    ensures |r| == |us|
    decreases us, 1
  {
    if us == [] then [] else [NormalIn(us[0])] + NormalAll(us[1..])
  }

  function NormalMeta(meta: Meta): Meta {
    if meta.Encodable? && meta.fields != [] then Encodable(false, meta.fields) else NoMeta
  }

  /** Unmarshal undoes Marshal up to the normal form exactly for non-nil errors all of whose codes
      are valid and none of whose lists holds nil; anything else is not read back at all. */
  lemma RoundTrip(e: Option<Err>)
    ensures Unmarshaled(Marshaled(e)) == if e.Some? && Writable(e.value) then Decoded(Normal(e.value)) else Failed
  {
    if e == None {
      ParseOfPrint(Null, []);
      assert Print(Null) + [] == [NullTok];
    } else if Writable(e.value) {
      ParseOfPrint(JsonOf(e.value), []);
      assert Print(JsonOf(e.value)) + [] == Print(JsonOf(e.value));
      DecodeOfJson(e.value);
    } else {
      PanicTextIsNoJson();
    }
  }

  lemma PanicTextIsNoJson()
    ensures Parse(PanicText()).Bad?
  {
    var ts := PanicText()[1..];
    JunkAfterField(ts[4..]);
    BadAfterField(ts);
  }

  lemma JunkAfterField(ts: seq<Token>)
    requires |ts| > 3 && ts[0].StrTok? && ts[1] == Colon && ts[2].StrTok? && ts[3].Junk?
    ensures ParseFields(ts).Bad?
  {
    assert Parse(ts[2..]) == Good(Str(ts[2].s), ts[2..][1..]);
    assert ts[2..][1..][0] == ts[3];
  }

  lemma BadAfterField(ts: seq<Token>)
    requires |ts| > 3 && ts[0].StrTok? && ts[1] == Colon && ts[2].StrTok? && ts[3] == Comma && ParseFields(ts[4..]).Bad?
    ensures ParseFields(ts).Bad?
  {
    assert Parse(ts[2..]) == Good(Str(ts[2].s), ts[2..][1..]);
    assert ts[2..][1..][0] == ts[3] && ts[2..][1..][1..] == ts[4..];
  }

  lemma {:induction false} DecodeOfJson(e: Err)
    requires Writable(e)
    ensures Decode(JsonOf(e)) == Decoded(Normal(e))
    decreases Size(e), 1
  {
    if e.Errs? {
      DecodeOfErrs(e);
    } else {
      FallbackJson(e);
      DecodeOfFallback(e);
    }
  }

  lemma {:induction false} ReadErrsAppend(a: seq<Field>, b: seq<Field>, e: Err)
    requires e.Errs?
    ensures ReadErrs(a + b, e) == var r := ReadErrs(a, e); if r.Decoded? then ReadErrs(b, r.value) else r
  {
    if a == [] {
      assert a + b == b;
    } else {
      assert (a + b)[1..] == a[1..] + b;
      var d := ErrsField(a[0], e);
      if d.Decoded? {
        ReadErrsAppend(a[1..], b, d.value);
      }
    }
  }

  lemma ReadOneField(f: Field, e: Err)
    requires e.Errs?
    ensures ReadErrs([f], e) == ErrsField(f, e)
  {
  }

  lemma ReadCodeAndItem(e: Err)
    requires e.Errs? && ValidCode(e.code)
    ensures ReadErrs(CodeAndItem(e), Errs(0, "", "", None, NoMeta, None))
         == Decoded(Errs(e.code, CodeName(e.code), e.item, None, NoMeta, None))
  {
    var zero := Errs(0, "", "", None, NoMeta, None);
    var fields := CodeAndItem(e);
    var coded := zero.(code := e.code, codeName := CodeName(e.code));
    assert ErrsField(fields[0], zero) == Decoded(zero);
    assert ErrsField(fields[1], zero) == Decoded(coded);
    assert ErrsField(fields[2], coded) == Decoded(coded);
    assert fields == [fields[0]] + ([fields[1]] + ([fields[2]] + [fields[3]]));
    ReadErrsAppend([fields[2]], [fields[3]], coded);
    ReadErrsAppend([fields[1]], [fields[2]] + [fields[3]], zero);
    ReadErrsAppend([fields[0]], [fields[1]] + ([fields[2]] + [fields[3]]), zero);
  }

  lemma {:induction false} DecodeOfErrs(e: Err)
    requires e.Errs? && Writable(e)
    ensures Decode(JsonOf(e)) == Decoded(Normal(e))
    decreases Size(e), 0
  {
    var zero := Errs(0, "", "", None, NoMeta, None);
    var read := Errs(e.code, CodeName(e.code), e.item, None, NoMeta, None);
    var withMeta := read.(meta := NormalMeta(e.meta));
    ReadCodeAndItem(e);
    ReadErrsAppend(CodeAndItem(e), MetaFields(e.meta), zero);
    ReadMetaFields(e.meta, read);
    ReadErrsAppend(CodeAndItem(e) + MetaFields(e.meta), WrapFields(e.underlying), zero);
    if e.underlying.Some? {
      assert SizeIn(e.underlying) < Size(e);
      DecodeOfJson(e.underlying.value);
      ReadOneField(Field(WRAPPED_KEY, JsonOf(e.underlying.value)), withMeta);
    }
    var fields := CodeAndItem(e) + MetaFields(e.meta) + WrapFields(e.underlying);
    assert fields[0] == Field(TYPE_KEY, Str(ERRS_TYPE));
    assert TypeNameIn(fields) == Some(ERRS_TYPE);
  }

  lemma ReadMetaFields(meta: Meta, e: Err)
    requires e.Errs? && e.meta == NoMeta
    ensures ReadErrs(MetaFields(meta), e) == Decoded(e.(meta := NormalMeta(meta)))
  {
    if meta.Encodable? && meta.fields != [] {
      ReadOneField(MetaFields(meta)[0], e);
      assert [] + meta.fields == meta.fields;
    } else if meta.Unencodable? {
      ReadOneField(MetaFields(meta)[0], e);
    }
  }

  lemma {:induction false} ReadFallbackAppend(a: seq<Field>, b: seq<Field>, p: Partial)
    ensures ReadFallback(a + b, p) ==
            match ReadFallback(a, p) { case Decoded(q) => ReadFallback(b, q) case Failed => Failed case Panicked => Panicked }
  {
    if a == [] {
      assert a + b == b;
    } else {
      assert (a + b)[1..] == a[1..] + b;
      var d := FallbackField(a[0], p);
      if d.Decoded? {
        ReadFallbackAppend(a[1..], b, d.value);
      }
    }
  }

  lemma ReadFallbackOne(f: Field, p: Partial)
    ensures ReadFallback([f], p) == FallbackField(f, p)
  {
  }

  lemma ReadPlainFields(msg: string)
    ensures ReadFallback(PlainFields(msg), Partial("", None, [])) == Decoded(Partial(msg, None, []))
  {
    var p := Partial("", None, []);
    var fields := PlainFields(msg);
    assert fields == [fields[0]] + [fields[1]];
    ReadFallbackOne(fields[0], p);
    ReadFallbackOne(fields[1], p);
    ReadFallbackAppend([fields[0]], [fields[1]], p);
  }

  lemma {:induction false} DecodeOfFallback(e: Err)
    requires !e.Errs? && Writable(e)
    requires JsonOf(e) == Obj(PlainFields(Text(e)) + WrapFields(UnwrapOne(e)) + ListFields(UnwrapMany(e)))
    ensures Decode(JsonOf(e)) == Decoded(Normal(e))
    decreases Size(e), 0
  {
    var p, u, us := Partial("", None, []), UnwrapOne(e), UnwrapMany(e);
    var plain := Partial(Text(e), None, []);
    assert SizeIn(u) < Size(e) && SizeOf(us) < Size(e);
    ReadPlainFields(Text(e));
    ReadFallbackAppend(PlainFields(Text(e)), WrapFields(u), p);
    ReadFallbackAppend(PlainFields(Text(e)) + WrapFields(u), ListFields(us), p);
    var fields := PlainFields(Text(e)) + WrapFields(u) + ListFields(us);
    assert fields[0] == Field(TYPE_KEY, Str(FALLBACK_TYPE));
    assert TypeNameIn(fields) == Some(FALLBACK_TYPE);
    if u.Some? {
      DecodeOfJson(u.value);
      ReadFallbackOne(Field(WRAPPED_KEY, JsonOf(u.value)), plain);
    } else if us != [] {
      DecodeOfList(us, []);
      ReadFallbackOne(Field(WRAPPED_KEY, Arr(JsonOfAll(us))), plain);
      assert [] + NormalAll(us) == NormalAll(us);
    }
  }

  lemma {:induction false} DecodeOfList(us: seq<Option<Err>>, before: seq<Option<Err>>)
    requires AllWritable(us)
    ensures ReadList(JsonOfAll(us), before) == Decoded(before + NormalAll(us))
    decreases SizeOf(us), 2, |us|
  {
    if us == [] {
      assert before + [] == before;
    } else {
      var js := JsonOfAll(us);
      assert js[0] == JsonOfOpt(us[0]) && js[1..] == JsonOfAll(us[1..]);
      assert SizeOf(us) == SizeIn(us[0]) + SizeOf(us[1..]);
      DecodeOfJson(us[0].value);
      DecodeOfList(us[1..], before + [NormalIn(us[0])]);
      assert before + [NormalIn(us[0])] + NormalAll(us[1..]) == before + NormalAll(us);
    }
  }

  // Normal forms.

  lemma {:induction false} NormalIsIdempotent(e: Err)
    ensures Normal(Normal(e)) == Normal(e)
    decreases Size(e), 1
  {
    match e {
      case Errs(_, _, _, _, _, u) => NormalInIsIdempotent(u);
      case Opaque(_, _, Nothing) =>
      case Opaque(_, _, One(u)) => NormalInIsIdempotent(u);
      case Opaque(_, _, Many(us)) => NormalAllIsIdempotent(us);
      case Chained(_, cause) => NormalIsIdempotent(cause);
    }
  }

  lemma {:induction false} NormalInIsIdempotent(u: Option<Err>)
    ensures NormalIn(NormalIn(u)) == NormalIn(u)
    decreases SizeIn(u), 2
  {
    if u.Some? {
      NormalIsIdempotent(u.value);
    }
  }

  lemma {:induction false} NormalAllIsIdempotent(us: seq<Option<Err>>)
    ensures NormalAll(NormalAll(us)) == NormalAll(us)
    decreases SizeOf(us), 3, |us|
  {
    if us != [] {
      NormalInIsIdempotent(us[0]);
      NormalAllIsIdempotent(us[1..]);
      assert NormalAll(us)[1..] == NormalAll(us[1..]);
    }
  }

  /** A normal form is read back whenever the error itself is, and then as itself: later hops
      change nothing. */
  lemma {:induction false} NormalStaysReadable(e: Err)
    ensures Writable(Normal(e)) == Writable(e)
    decreases Size(e), 1
  {
    match e {
      case Errs(_, _, _, _, _, u) => NormalInStaysReadable(u);
      case Opaque(_, _, Nothing) =>
      case Opaque(_, _, One(u)) => NormalInStaysReadable(u);
      case Opaque(_, _, Many(us)) => NormalAllStaysReadable(us);
      case Chained(_, cause) => NormalStaysReadable(cause);
    }
  }

  lemma {:induction false} NormalInStaysReadable(u: Option<Err>)
    ensures WritableIn(NormalIn(u)) == WritableIn(u)
    decreases SizeIn(u), 2
  {
    if u.Some? {
      NormalStaysReadable(u.value);
    }
  }

  lemma {:induction false} NormalAllStaysReadable(us: seq<Option<Err>>)
    ensures AllWritable(NormalAll(us)) == AllWritable(us)
    decreases SizeOf(us), 3, |us|
  {
    if us != [] {
      NormalInStaysReadable(us[0]);
      NormalAllStaysReadable(us[1..]);
      assert NormalAll(us)[1..] == NormalAll(us[1..]);
    }
  }

  lemma SecondHopChangesNothing(e: Err)
    requires Writable(e)
    ensures Unmarshaled(Marshaled(Some(Normal(e)))) == Decoded(Normal(e))
  {
    NormalStaysReadable(e);
    NormalIsIdempotent(e);
    RoundTrip(Some(Normal(e)));
  }

  // What callers observe.

  /** No wrapper of a converted failure holds an `*errs.Error` of its own. */
  predicate Plain(e: Err)
    decreases e, 0
  {
    match e
    case Errs(_, _, _, _, _, u) => PlainIn(u)
    case Opaque(_, _, Nothing) => true
    case Opaque(_, _, One(u)) => PlainIn(u)
    case Opaque(_, _, Many(us)) => PlainOf(us)
    case Chained(outer, cause) => Reached(outer) == [] && Plain(cause)
  }

  predicate PlainIn(u: Option<Err>)
    decreases u, 0
  {
    u.Some? ==> Plain(u.value)
  }

  predicate PlainOf(us: seq<Option<Err>>)
    decreases us, 1
  {
    us != [] ==> PlainIn(us[0]) && PlainOf(us[1..])
  }

  /** The codes and messages that errors.As reaches stay the same exactly for plain errors; a
      wrapper's own `*errs.Error` is lost. */
  lemma {:induction false} ReachedIsKeptIffPlain(e: Err)
    ensures |Reached(Normal(e))| <= |Reached(e)|
    ensures Reached(Normal(e)) == Reached(e) <==> Plain(e)
    ensures |Reached(Normal(e))| == |Reached(e)| <==> Plain(e)
    decreases Size(e), 1
  {
    match e {
      case Errs(_, _, _, _, _, u) => ReachedInIsKept(u);
      case Opaque(_, _, Nothing) =>
      case Opaque(_, _, One(u)) => ReachedInIsKept(u);
      case Opaque(_, _, Many(us)) => ReachedOfIsKept(us);
      case Chained(outer, cause) => ReachedIsKeptIffPlain(cause);
    }
  }

  lemma {:induction false} ReachedInIsKept(u: Option<Err>)
    ensures |ReachedIn(NormalIn(u))| <= |ReachedIn(u)|
    ensures ReachedIn(NormalIn(u)) == ReachedIn(u) <==> PlainIn(u)
    ensures |ReachedIn(NormalIn(u))| == |ReachedIn(u)| <==> PlainIn(u)
    decreases SizeIn(u), 2
  {
    if u.Some? {
      ReachedIsKeptIffPlain(u.value);
    }
  }

  lemma {:induction false} ReachedOfIsKept(us: seq<Option<Err>>)
    ensures |ReachedOf(NormalAll(us))| <= |ReachedOf(us)|
    ensures ReachedOf(NormalAll(us)) == ReachedOf(us) <==> PlainOf(us)
    ensures |ReachedOf(NormalAll(us))| == |ReachedOf(us)| <==> PlainOf(us)
    decreases SizeOf(us), 3, |us|
  {
    if us != [] {
      ReachedInIsKept(us[0]);
      ReachedOfIsKept(us[1..]);
      assert NormalAll(us)[1..] == NormalAll(us[1..]);
    }
  }

  /** What errors.As finds first is the head of what it reaches. */
  lemma {:induction false} FirstIsHeadOfReached(e: Err)
    ensures First(e).Some? <==> Reached(e) != []
    ensures First(e).Some? ==> Reached(e)[0] == (First(e).value.code, First(e).value.item)
    decreases Size(e), 1
  {
    match e {
      case Errs(_, _, _, _, _, u) =>
      case Opaque(_, _, Nothing) =>
      case Opaque(_, _, One(u)) =>
        assert SizeIn(u) < Size(e);
        if u.Some? { FirstIsHeadOfReached(u.value); }
      case Opaque(_, _, Many(us)) => FirstOfIsHeadOfReached(us);
      case Chained(outer, cause) =>
        FirstIsHeadOfReached(outer);
        FirstIsHeadOfReached(cause);
    }
  }

  lemma {:induction false} FirstOfIsHeadOfReached(us: seq<Option<Err>>)
    ensures FirstOf(us).Some? <==> ReachedOf(us) != []
    ensures FirstOf(us).Some? ==> ReachedOf(us)[0] == (FirstOf(us).value.code, FirstOf(us).value.item)
    decreases SizeOf(us), 3, |us|
  {
    if us != [] {
      if us[0].Some? {
        assert SizeOf(us) == SizeIn(us[0]) + SizeOf(us[1..]);
        FirstIsHeadOfReached(us[0].value);
      }
      FirstOfIsHeadOfReached(us[1..]);
    }
  }

  /** What errors.As reaches through causes alone, leaving out what a converted failure's wrapper
      holds of its own. */
  function Inner(e: Err): seq<(int, string)>
    decreases e, 0
  {
    match e
    case Errs(code, _, item, _, _, u) => [(code, item)] + InnerIn(u)
    case Opaque(_, _, Nothing) => []
    case Opaque(_, _, One(u)) => InnerIn(u)
    case Opaque(_, _, Many(us)) => InnerOf(us)
    case Chained(_, cause) => Inner(cause)
  }

  function InnerIn(u: Option<Err>): seq<(int, string)>
    decreases u, 0
  {
    if u == None then [] else Inner(u.value)
  }

  function InnerOf(us: seq<Option<Err>>): seq<(int, string)>
    decreases us, 1
  {
    if us == [] then [] else InnerIn(us[0]) + InnerOf(us[1..])
  }

  /** For every error, that is what errors.As reaches in its normal form. */
  lemma {:induction false} NormalReachesTheInner(e: Err)
    ensures Reached(Normal(e)) == Inner(e)
    decreases Size(e), 1
  {
    match e {
      case Errs(_, _, _, _, _, u) => NormalInReachesTheInner(u);
      case Opaque(_, _, Nothing) =>
      case Opaque(_, _, One(u)) => NormalInReachesTheInner(u);
      case Opaque(_, _, Many(us)) => NormalAllReachesTheInner(us);
      case Chained(_, cause) => NormalReachesTheInner(cause);
    }
  }

  lemma {:induction false} NormalInReachesTheInner(u: Option<Err>)
    ensures ReachedIn(NormalIn(u)) == InnerIn(u)
    decreases SizeIn(u), 2
  {
    if u.Some? {
      NormalReachesTheInner(u.value);
    }
  }

  lemma {:induction false} NormalAllReachesTheInner(us: seq<Option<Err>>)
    ensures ReachedOf(NormalAll(us)) == InnerOf(us)
    decreases SizeOf(us), 3, |us|
  {
    if us != [] {
      NormalInReachesTheInner(us[0]);
      NormalAllReachesTheInner(us[1..]);
      assert NormalAll(us)[1..] == NormalAll(us[1..]);
    }
  }

  /** The code of the first `*errs.Error` reached. */
  function CodeOfFirst(reached: seq<(int, string)>): int {
    if reached == [] then UNKNOWN else reached[0].0
  }

  lemma CodeIsOfFirst(e: Err)
    ensures Code(Some(e)) == CodeOfFirst(Reached(e))
  {
    FirstIsHeadOfReached(e);
  }

  /** The code of the normal form is that of the first `*errs.Error` reached through causes; so it is
      unchanged exactly if that has the code of the first one reached at all, as it has in every
      plain error. */
  lemma CodeOfNormal(e: Err)
    ensures Code(Some(Normal(e))) == CodeOfFirst(Inner(e))
    ensures Code(Some(Normal(e))) == Code(Some(e)) <==> CodeOfFirst(Inner(e)) == CodeOfFirst(Reached(e))
    ensures Plain(e) ==> Inner(e) == Reached(e)
  {
    CodeIsOfFirst(e);
    CodeIsOfFirst(Normal(e));
    NormalReachesTheInner(e);
    ReachedIsKeptIffPlain(e);
  }

  /** The first `*errs.Error` reached through causes alone. */
  function InnerFirst(e: Err): (r: Option<Err>)
    ensures r.Some? ==> r.value.Errs?
    decreases e, 0
  {
    match e
    case Errs(_, _, _, _, _, _) => Some(e)
    case Opaque(_, _, Nothing) => None
    case Opaque(_, _, One(u)) => InnerFirstIn(u)
    case Opaque(_, _, Many(us)) => InnerFirstOf(us)
    case Chained(_, cause) => InnerFirst(cause)
  }

  function InnerFirstIn(u: Option<Err>): (r: Option<Err>)
    ensures r.Some? ==> r.value.Errs?
    decreases u, 0
  {
    if u == None then None else InnerFirst(u.value)
  }

  function InnerFirstOf(us: seq<Option<Err>>): (r: Option<Err>)
    ensures r.Some? ==> r.value.Errs?
    decreases us, 1
  {
    if us == [] then None
    else
      var f := InnerFirstIn(us[0]);
      if f.Some? then f else InnerFirstOf(us[1..])
  }

  lemma {:induction false} InnerFirstIsNoLarger(e: Err)
    ensures InnerFirst(e).Some? ==> Size(InnerFirst(e).value) <= Size(e)
    decreases Size(e), 0
  {
    match e {
      case Errs(_, _, _, _, _, _) =>
      case Opaque(_, _, Nothing) =>
      case Opaque(_, _, One(u)) => if u.Some? { InnerFirstIsNoLarger(u.value); }
      case Opaque(_, _, Many(us)) => InnerFirstOfIsNoLarger(us);
      case Chained(_, cause) => InnerFirstIsNoLarger(cause);
    }
  }

  lemma {:induction false} InnerFirstOfIsNoLarger(us: seq<Option<Err>>)
    ensures InnerFirstOf(us).Some? ==> Size(InnerFirstOf(us).value) <= SizeOf(us)
    decreases SizeOf(us), 1, |us|
  {
    if us != [] {
      if us[0].Some? {
        assert SizeOf(us) == SizeIn(us[0]) + SizeOf(us[1..]);
        InnerFirstIsNoLarger(us[0].value);
      }
      InnerFirstOfIsNoLarger(us[1..]);
    }
  }

  /** The first `*errs.Error` of a normal form is the normal form of that. */
  lemma {:induction false} FirstOfNormal(e: Err)
    ensures First(Normal(e)) == NormalIn(InnerFirst(e))
    decreases Size(e), 1
  {
    match e {
      case Errs(_, _, _, _, _, u) =>
      case Opaque(_, _, Nothing) =>
      case Opaque(_, _, One(u)) =>
        assert SizeIn(u) < Size(e);
        if u.Some? { FirstOfNormal(u.value); }
      case Opaque(_, _, Many(us)) => FirstOfNormalAll(us);
      case Chained(_, cause) => FirstOfNormal(cause);
    }
  }

  lemma {:induction false} FirstOfNormalAll(us: seq<Option<Err>>)
    ensures FirstOf(NormalAll(us)) == NormalIn(InnerFirstOf(us))
    decreases SizeOf(us), 3, |us|
  {
    if us != [] {
      if us[0].Some? {
        assert SizeOf(us) == SizeIn(us[0]) + SizeOf(us[1..]);
        FirstOfNormal(us[0].value);
      }
      FirstOfNormalAll(us[1..]);
      assert NormalAll(us)[1..] == NormalAll(us[1..]);
    }
  }

  /** In a plain error, nothing comes before what is reached through causes. */
  lemma {:induction false} FirstOfPlain(e: Err)
    requires Plain(e)
    ensures InnerFirst(e) == First(e) && (First(e).Some? ==> Plain(First(e).value))
    decreases Size(e), 1
  {
    match e {
      case Errs(_, _, _, _, _, u) =>
      case Opaque(_, _, Nothing) =>
      case Opaque(_, _, One(u)) =>
        assert SizeIn(u) < Size(e);
        if u.Some? { FirstOfPlain(u.value); }
      case Opaque(_, _, Many(us)) => FirstOfPlainAll(us);
      case Chained(outer, cause) =>
        FirstIsHeadOfReached(outer);
        FirstOfPlain(cause);
    }
  }

  lemma {:induction false} FirstOfPlainAll(us: seq<Option<Err>>)
    requires PlainOf(us)
    ensures InnerFirstOf(us) == FirstOf(us) && (FirstOf(us).Some? ==> Plain(FirstOf(us).value))
    decreases SizeOf(us), 3, |us|
  {
    if us != [] {
      if us[0].Some? {
        assert SizeOf(us) == SizeIn(us[0]) + SizeOf(us[1..]);
        FirstOfPlain(us[0].value);
      }
      FirstOfPlainAll(us[1..]);
    }
  }

  /** The messages that are joined, found through causes alone. */
  function InnerMessages(next: Option<Err>): seq<string>
    decreases SizeIn(next)
  {
    if next == None then []
    else
      InnerFirstIsNoLarger(next.value);
      var f := InnerFirst(next.value);
      if f.Some? then [f.value.item] + InnerMessages(f.value.underlying) else [Text(next.value)]
  }

  /** The text of an error, with its messages found through causes alone. */
  function InnerText(e: Err): string {
    if e.Errs? then
      (if e.code == UNKNOWN then "unknown code: " else CodeName(e.code) + ": ") + Join([e.item] + InnerMessages(e.underlying))
    else Text(e)
  }

  /** For every error, that is the text of its normal form; so the text is unchanged exactly if the
      messages come to the same, as they do for whatever is no `*errs.Error` itself, or plain. */
  lemma TextOfNormal(e: Err)
    ensures Text(Normal(e)) == InnerText(e)
    ensures Text(Normal(e)) == Text(e) <==> InnerText(e) == Text(e)
    ensures !e.Errs? || Plain(e) ==> InnerText(e) == Text(e)
  {
    if e.Errs? {
      MessagesOfNormal(e.underlying);
      if Plain(e) {
        MessagesOfPlain(e.underlying);
      }
    }
  }

  lemma {:induction false} MessagesOfNormal(u: Option<Err>)
    ensures Messages(NormalIn(u)) == InnerMessages(u)
    decreases SizeIn(u), 2
  {
    if u.Some? {
      FirstOfNormal(u.value);
      InnerFirstIsNoLarger(u.value);
      var f := InnerFirst(u.value);
      if f.Some? {
        MessagesOfNormal(f.value.underlying);
      }
    }
  }

  lemma {:induction false} MessagesOfPlain(u: Option<Err>)
    requires PlainIn(u)
    ensures InnerMessages(u) == Messages(u)
    decreases SizeIn(u), 2
  {
    if u.Some? {
      FirstOfPlain(u.value);
      FirstIsNoLarger(u.value);
      var f := First(u.value);
      if f.Some? {
        MessagesOfPlain(f.value.underlying);
      }
    }
  }

  /** All of it over the wire: an error that can be written comes back with everything that is
      reached through causes, the code of the first of it and the text made of it; a plain one with
      all it had. */
  lemma ObserversSurviveTheWire(e: Err)
    requires Writable(e)
    ensures Unmarshaled(Marshaled(Some(e))).Decoded?
    ensures var d := Unmarshaled(Marshaled(Some(e))).value;
            && Reached(d) == Inner(e) && Code(Some(d)) == CodeOfFirst(Inner(e)) && Text(d) == InnerText(e)
            && (Plain(e) ==> Reached(d) == Reached(e) && Code(Some(d)) == Code(Some(e)) && Text(d) == Text(e))
  {
    RoundTrip(Some(e));
    NormalReachesTheInner(e);
    CodeOfNormal(e);
    TextOfNormal(e);
  }

  /** What the receiver of an error sees: of an `*errs.Error` its code with its name, its message, no
      details, and its metadata if they could be encoded; of any other error its text; and below it
      what it wrapped, if anything. */
  lemma WhatTheReceiverSees(e: Err)
    requires Writable(e)
    ensures Unmarshaled(Marshaled(Some(e))).Decoded?
    ensures var d := Unmarshaled(Marshaled(Some(e))).value;
            && d.Errs? == e.Errs?
            && (e.Errs? ==>
                  && d.code == e.code && d.codeName == CodeName(e.code) && d.item == e.item && d.details == None
                  && d.underlying.Some? == e.underlying.Some?
                  && d.meta == if e.meta.Encodable? && e.meta.fields != [] then Encodable(false, e.meta.fields) else NoMeta)
            && (e.Opaque? ==>
                  && d.Opaque? && d.msg == e.msg
                  && (d.wraps.One? <==> e.wraps.One? && e.wraps.err.Some?)
                  && (d.wraps.Many? <==> e.wraps.Many? && e.wraps.errs != [])
                  && (d.wraps.Many? ==> |d.wraps.errs| == |e.wraps.errs|))
            && (e.Chained? ==> d.Opaque? && d.msg == Text(e.outer) + ": " + Text(e.cause) && d.wraps.One? && d.wraps.err.Some?)
  {
    RoundTrip(Some(e));
  }

  // Text written by others.

  /** The least that is read back: a type and a message, or a type, a code and a message. */
  lemma LeastTexts(code: int, msg: string)
    ensures Decode(Obj([Field("@type", Str("error")), Field("item", Str(msg))])) == Decoded(Opaque("*errorString", msg, Nothing))
    ensures ValidCode(code) ==>
              var least := [Field("@type", Str("github.com/clubpay/ronykit/rony/errs.Error")),
                            Field("code", Num(code)), Field("item", Str(msg))];
              Decode(Obj(least)) == Decoded(Errs(code, CodeName(code), msg, None, NoMeta, None))
  {
    assert PlainFields(msg) == [Field("@type", Str("error")), Field("item", Str(msg))];
    ReadPlainFields(msg);
    var zero := Errs(0, "", "", None, NoMeta, None);
    var t, c, i := Field("@type", Str("github.com/clubpay/ronykit/rony/errs.Error")), Field("code", Num(code)), Field("item", Str(msg));
    assert [t, c, i] == [t] + ([c] + [i]);
    if ValidCode(code) {
      var coded := zero.(code := code, codeName := CodeName(code));
      ReadErrsAppend([c], [i], zero);
      ReadErrsAppend([t], [c] + [i], zero);
      ReadOneField(t, zero);
      ReadOneField(c, zero);
      ReadOneField(i, coded);
    }
  }

  /** Fields that come twice: of two messages the later one counts, of two metadata objects the later
      one is added to the earlier one, and null takes back what there was. */
  lemma RepeatedFields(m: string, n: string, a: seq<Field>, b: seq<Field>)
    ensures Decode(Obj([Field("@type", Str(ERRS_TYPE)), Field("item", Str(m)), Field("item", Str(n))]))
         == Decoded(Errs(0, "", n, None, NoMeta, None))
    ensures Decode(Obj([Field("@type", Str(ERRS_TYPE)), Field("meta", Obj(a)), Field("meta", Obj(b))]))
         == Decoded(Errs(0, "", "", None, Encodable(false, a + b), None))
    ensures Decode(Obj([Field("@type", Str(ERRS_TYPE)), Field("meta", Obj(a)), Field("meta", Null)]))
         == Decoded(Errs(0, "", "", None, NoMeta, None))
  {
    TwoFields(Field("item", Str(m)), Field("item", Str(n)));
    TwoFields(Field("meta", Obj(a)), Field("meta", Obj(b)));
    TwoFields(Field("meta", Obj(a)), Field("meta", Null));
    assert [] + a == a;
  }

  lemma TwoFields(f: Field, g: Field)
    ensures var d := ErrsField(f, Errs(0, "", "", None, NoMeta, None));
            Decode(Obj([Field("@type", Str(ERRS_TYPE)), f, g])) == if d.Decoded? then ErrsField(g, d.value) else d
  {
    var zero, t := Errs(0, "", "", None, NoMeta, None), Field("@type", Str(ERRS_TYPE));
    assert [t, f, g] == [t] + ([f] + [g]);
    ReadErrsAppend([t], [f] + [g], zero);
    ReadErrsAppend([f], [g], zero);
    ReadOneField(t, zero);
    ReadOneField(f, zero);
    if ErrsField(f, zero).Decoded? {
      ReadOneField(g, ErrsField(f, zero).value);
    }
  }

  /** A field that no decoder looks at. */
  predicate Unknown(f: Field) {
    f.name != TYPE_KEY && f.name != ITEM_KEY && f.name != WRAPPED_KEY && f.name != "code" && f.name != "meta"
  }

  /** Fields that the decoders do not know change nothing, wherever they stand. */
  lemma UnknownFieldsAreSkipped(a: seq<Field>, f: Field, b: seq<Field>)
    requires Unknown(f)
    ensures Decode(Obj(a + [f] + b)) == Decode(Obj(a + b))
  {
    SameTypeName(a, f, b);
    FallbackSkips(a, f, b, Partial("", None, []));
    ErrsSkips(a, f, b, Errs(0, "", "", None, NoMeta, None));
  }

  lemma {:induction false} SameTypeName(a: seq<Field>, f: Field, b: seq<Field>)
    requires Unknown(f)
    ensures TypeNameIn(a + [f] + b) == TypeNameIn(a + b)
  {
    if a == [] {
      assert a + [f] + b == [f] + b && a + b == b && ([f] + b)[1..] == b;
    } else {
      assert (a + [f] + b)[1..] == a[1..] + [f] + b && (a + b)[1..] == a[1..] + b;
      SameTypeName(a[1..], f, b);
    }
  }

  lemma {:induction false} FallbackSkips(a: seq<Field>, f: Field, b: seq<Field>, p: Partial)
    requires Unknown(f)
    ensures ReadFallback(a + [f] + b, p) == ReadFallback(a + b, p)
    decreases |a|
  {
    if a == [] {
      assert a + [f] + b == [f] + b && a + b == b && ([f] + b)[1..] == b;
    } else {
      assert (a + [f] + b)[1..] == a[1..] + [f] + b && (a + b)[1..] == a[1..] + b;
      var r := FallbackField(a[0], p);
      if r.Decoded? {
        FallbackSkips(a[1..], f, b, r.value);
      }
    }
  }

  lemma {:induction false} ErrsSkips(a: seq<Field>, f: Field, b: seq<Field>, e: Err)
    requires Unknown(f) && e.Errs?
    ensures ReadErrs(a + [f] + b, e) == ReadErrs(a + b, e)
    decreases |a|
  {
    if a == [] {
      assert a + [f] + b == [f] + b && a + b == b && ([f] + b)[1..] == b;
    } else {
      assert (a + [f] + b)[1..] == a[1..] + [f] + b && (a + b)[1..] == a[1..] + b;
      var r := ErrsField(a[0], e);
      if r.Decoded? {
        ErrsSkips(a[1..], f, b, r.value);
      }
    }
  }
}
