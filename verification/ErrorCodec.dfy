/** Writing errors to a JSON stream and reading them back (rony/errs/errmarshalling,
    rony/errs/error_internal.go). */
module ErrorCodec {
  import opened Wrappers
  import opened ErrorTree
  import opened ErrorText

  const TYPE_KEY := "@type"
  const ITEM_KEY := "item"
  const WRAPPED_KEY := "wraps"
  const FALLBACK_TYPE := "error"
  const ERRS_TYPE := "github.com/clubpay/ronykit/rony/errs.Error"

  // What each error is encoded as.

  /** Encoding does not panic: all the error codes it comes across are valid, and no list of wrapped
      errors holds a nil one. */
  predicate Writable(e: Err)
    decreases e, 0
  {
    match e
    case Errs(code, _, _, _, _, u) => ValidCode(code) && WritableIn(u)
    case Opaque(_, _, Nothing) => true
    case Opaque(_, _, One(u)) => WritableIn(u)
    case Opaque(_, _, Many(us)) => AllWritable(us)
    case Chained(_, cause) => Writable(cause)
  }

  predicate WritableIn(u: Option<Err>)
    decreases u, 0
  {
    u.Some? ==> Writable(u.value)
  }

  predicate AllWritable(us: seq<Option<Err>>)
    decreases us, 1
  {
    us != [] ==> us[0].Some? && WritableIn(us[0]) && AllWritable(us[1..])
  }

  /** The JSON tree of an error. */
  function JsonOf(e: Err): Json
    decreases e, 0
  {
    match e
    case Errs(_, _, _, _, meta, u) => Obj(CodeAndItem(e) + MetaFields(meta) + WrapFields(u))
    case Opaque(_, msg, Nothing) => Obj(PlainFields(msg))
    case Opaque(_, msg, One(u)) => Obj(PlainFields(msg) + WrapFields(u))
    case Opaque(_, msg, Many(us)) => Obj(PlainFields(msg) + ListFields(us))
    case Chained(_, cause) => Obj(PlainFields(Text(e)) + [Field(WRAPPED_KEY, JsonOf(cause))])
  }

  function CodeAndItem(e: Err): seq<Field>
    requires e.Errs?
  {
    [Field(TYPE_KEY, Str(ERRS_TYPE)), Field("code", Num(e.code)), Field("codeName", Str(CodeName(e.code))),
     Field(ITEM_KEY, Str(e.item))]
  }

  function PlainFields(msg: string): seq<Field> {
    [Field(TYPE_KEY, Str(FALLBACK_TYPE)), Field(ITEM_KEY, Str(msg))]
  }

  function MetaFields(meta: Meta): seq<Field> {
    match meta
    case NoMeta => []
    case Encodable(_, fields) => if fields == [] then [] else [Field("meta", Obj(fields))]
    case Unencodable(reason) => [Field("meta_marshal_error", Str(reason))]
  }

  function WrapFields(u: Option<Err>): seq<Field>
    decreases u, 0
  {
    if u == None then [] else [Field(WRAPPED_KEY, JsonOf(u.value))]
  }

  function ListFields(us: seq<Option<Err>>): seq<Field>
    decreases us, 2
  {
    if us == [] then [] else [Field(WRAPPED_KEY, Arr(JsonOfAll(us)))]
  }

  function JsonOfAll(us: seq<Option<Err>>): seq<Json>
    decreases us, 1
  {
    if us == [] then [] else [JsonOfOpt(us[0])] + JsonOfAll(us[1..])
  }

  function JsonOfOpt(u: Option<Err>): Json
    decreases u, 0
  {
    if u == None then Null else JsonOf(u.value)
  }

  /** What Marshal returns for a panic: its quoted message inside quotes, which is not JSON. */
  function PanicText(): seq<Token> {
    [OpenBrace, StrTok(TYPE_KEY), Colon, StrTok(FALLBACK_TYPE), Comma, StrTok(ITEM_KEY), Colon,
     StrTok(""), Junk("panic occurred while marshalling error"), StrTok(""), CloseBrace]
  }

  /** What Marshal returns. */
  function Marshaled(e: Option<Err>): seq<Token> {
    if e == None then [NullTok] else if Writable(e.value) then Print(JsonOf(e.value)) else PanicText()
  }

  // The encoders.

  /** What the Unwrap method with a single result yields; none without such a method. */
  function UnwrapOne(e: Err): Option<Err> {
    match e
    case Errs(_, _, _, _, _, u) => u
    case Opaque(_, _, One(u)) => u
    case Opaque(_, _, _) => None
    case Chained(_, cause) => Some(cause)
  }

  /** What the Unwrap method with a list result yields; none without such a method. */
  function UnwrapMany(e: Err): seq<Option<Err>> {
    if e.Opaque? && e.wraps.Many? then e.wraps.errs else []
  }

  /** The jsoniter stream: everything written so far. */
  class Stream {
    var out: seq<Token>

    constructor ()
      ensures out == []
    {
      out := [];
    }

    method WriteObjectStart()
      modifies this
      ensures out == old(out) + [OpenBrace]
    {
      out := out + [OpenBrace];
    }

    method WriteObjectEnd()
      modifies this
      ensures out == old(out) + [CloseBrace]
    {
      out := out + [CloseBrace];
    }

    method WriteMore()
      modifies this
      ensures out == old(out) + [Comma]
    {
      out := out + [Comma];
    }

    method WriteObjectField(name: string)
      modifies this
      ensures out == old(out) + [StrTok(name), Colon]
    {
      out := out + [StrTok(name), Colon];
    }

    method Write(ts: seq<Token>)
      modifies this
      ensures out == old(out) + ts
    {
      out := out + ts;
    }

    /** Writes an error with the encoder of its type: the registered one for `*errs.Error`, the
        fallback for any other. It panics at an invalid error code and at a nil error in a list. */
    method WriteErr(e: Err) returns (panicked: bool)
      modifies this
      ensures panicked <==> !Writable(e)
      ensures !panicked ==> out == old(out) + Print(JsonOf(e))
      decreases Size(e), 1
    {
      if e.Errs? {
        panicked := WriteErrs(e);
      } else {
        panicked := WriteFallback(e);
      }
    }

    method WriteErrs(e: Err) returns (panicked: bool)
      requires e.Errs?
      modifies this
      ensures panicked <==> !Writable(e)
      ensures !panicked ==> out == old(out) + Print(JsonOf(e))
      decreases Size(e), 0
    {
      ghost var start := out + [OpenBrace];
      panicked := WriteCodeAndItem(e);
      if panicked {
        return true;
      }
      WriteMeta(e.meta, start, CodeAndItem(e));
      panicked := WriteWrapped(e.underlying, start, CodeAndItem(e) + MetaFields(e.meta));
      if panicked {
        return true;
      }
      WriteObjectEnd();
      return false;
    }

    method WriteCodeAndItem(e: Err) returns (panicked: bool)
      requires e.Errs?
      modifies this
      ensures panicked <==> !ValidCode(e.code)
      ensures !panicked ==> out == old(out) + [OpenBrace] + PrintFields(CodeAndItem(e))
    {
      WriteTypeAndCode(e.code);
      WriteMore();
      WriteObjectField("codeName");
      if !ValidCode(e.code) {
        return true;
      }
      WriteNameAndItem(e.code, e.item);
      FourFieldsText(CodeAndItem(e));
      return false;
    }

    method WriteTypeAndCode(code: int)
      modifies this
      ensures out == old(out) + [OpenBrace] + (PrintField(Field(TYPE_KEY, Str(ERRS_TYPE))) + [Comma] + PrintField(Field("code", Num(code))))
    {
      WriteObjectStart();
      WriteObjectField(TYPE_KEY);
      Write([StrTok(ERRS_TYPE)]);
      WriteMore();
      WriteObjectField("code");
      Write([NumTok(code)]);
    }

    /** The name of the code, whose key has been written, and the message. */
    method WriteNameAndItem(code: int, item: string)
      requires ValidCode(code)
      modifies this
      ensures out == old(out) + ([StrTok(CodeName(code))] + [Comma] + PrintField(Field(ITEM_KEY, Str(item))))
    {
      Write([StrTok(CodeName(code))]);
      WriteMore();
      WriteObjectField(ITEM_KEY);
      Write([StrTok(item)]);
    }

    /** The field with the error that another one wraps, if any. */
    method WriteWrapped(u: Option<Err>, ghost start: seq<Token>, ghost fields: seq<Field>) returns (panicked: bool)
      requires out == start + PrintFields(fields) && fields != []
      modifies this
      ensures panicked <==> !WritableIn(u)
      ensures !panicked ==> out == start + PrintFields(fields + WrapFields(u))
      decreases SizeIn(u), 2
    {
      if u == None {
        assert fields + [] == fields;
        return false;
      }
      WriteMore();
      WriteObjectField(WRAPPED_KEY);
      panicked := WriteErr(u.value);
      OneMoreField(start, fields, Field(WRAPPED_KEY, JsonOf(u.value)));
    }

    /** The metadata field, or the field that tells why there is none. */
    method WriteMeta(meta: Meta, ghost start: seq<Token>, ghost fields: seq<Field>)
      requires out == start + PrintFields(fields) && fields != []
      modifies this
      ensures out == start + PrintFields(fields + MetaFields(meta))
    {
      if meta.Encodable? && meta.fields != [] {
        WriteMore();
        WriteObjectField("meta");
        Write(Print(Obj(meta.fields)));
        OneMoreField(start, fields, Field("meta", Obj(meta.fields)));
      } else if meta.Unencodable? {
        WriteMore();
        WriteObjectField("meta_marshal_error");
        Write([StrTok(meta.reason)]);
        OneMoreField(start, fields, Field("meta_marshal_error", Str(meta.reason)));
      } else {
        assert fields + [] == fields;
      }
    }

    method WriteFallback(e: Err) returns (panicked: bool)
      requires !e.Errs?
      modifies this
      ensures panicked <==> !Writable(e)
      ensures !panicked ==> out == old(out) + Print(JsonOf(e))
      decreases Size(e), 0
    {
      ghost var start := out + [OpenBrace];
      WriteTypeAndItem(Text(e));
      var single := UnwrapOne(e);
      assert SizeIn(single) < Size(e);
      panicked := WriteWrapped(single, start, PlainFields(Text(e)));
      if panicked {
        return true;
      }
      var list := UnwrapMany(e);
      panicked := WriteWrappedList(list, start, PlainFields(Text(e)) + WrapFields(single));
      if panicked {
        return true;
      }
      WriteObjectEnd();
      FallbackJson(e);
      return false;
    }

    method WriteTypeAndItem(msg: string)
      modifies this
      ensures out == old(out) + [OpenBrace] + PrintFields(PlainFields(msg))
    {
      WriteObjectStart();
      WriteObjectField(TYPE_KEY);
      Write([StrTok(FALLBACK_TYPE)]);
      WriteMore();
      WriteObjectField(ITEM_KEY);
      Write([StrTok(msg)]);
      TwoFieldsText(PlainFields(msg));
    }

    /** The field with the errors that another one wraps, if any. */
    method WriteWrappedList(us: seq<Option<Err>>, ghost start: seq<Token>, ghost fields: seq<Field>)
      returns (panicked: bool)
      requires out == start + PrintFields(fields) && fields != []
      modifies this
      ensures panicked <==> !AllWritable(us)
      ensures !panicked ==> out == start + PrintFields(fields + ListFields(us))
      decreases SizeOf(us), 3
    {
      if us == [] {
        assert fields + [] == fields;
        return false;
      }
      WriteMore();
      WriteObjectField(WRAPPED_KEY);
      panicked := WriteAll(us);
      OneMoreField(start, fields, Field(WRAPPED_KEY, Arr(JsonOfAll(us))));
    }

    /** A list of errors, some of which may be nil. */
    method WriteAll(us: seq<Option<Err>>) returns (panicked: bool)
      modifies this
      ensures panicked <==> !AllWritable(us)
      ensures !panicked ==> out == old(out) + Print(Arr(JsonOfAll(us)))
      decreases SizeOf(us), 2
    {
      ghost var start := out + [OpenBracket];
      Write([OpenBracket]);
      var i := 0;
      while i < |us|
        invariant 0 <= i <= |us|
        invariant AllWritable(us) == AllWritable(us[i..])
        invariant SizeOf(us[i..]) <= SizeOf(us)
        invariant out == start + PrintItems(JsonOfAll(us[..i]))
      {
        assert us[i..][1..] == us[i + 1..];
        if i > 0 {
          WriteMore();
        }
        if us[i] == None {
          return true;
        }
        assert SizeOf(us[i..]) == SizeIn(us[i]) + SizeOf(us[i + 1..]);
        panicked := WriteErr(us[i].value);
        if panicked {
          return true;
        }
        OneMoreItem(start, us, i);
        i := i + 1;
      }
      assert us[..i] == us;
      Write([CloseBracket]);
      return false;
    }
  }

  lemma FallbackJson(e: Err)
    requires !e.Errs?
    ensures JsonOf(e) == Obj(PlainFields(Text(e)) + WrapFields(UnwrapOne(e)) + ListFields(UnwrapMany(e)))
    ensures Writable(e) <==> WritableIn(UnwrapOne(e)) && AllWritable(UnwrapMany(e))
  {
    var fields := PlainFields(Text(e));
    assert fields + [] == fields;
  }

  lemma TwoFieldsText(fields: seq<Field>)
    requires |fields| == 2
    ensures PrintFields(fields) == PrintField(fields[0]) + [Comma] + PrintField(fields[1])
  {
  }

  lemma FourFieldsText(fields: seq<Field>)
    requires |fields| == 4
    ensures PrintFields(fields) ==
            PrintField(fields[0]) + [Comma] + PrintField(fields[1]) + [Comma] +
            PrintField(fields[2]) + [Comma] + PrintField(fields[3])
  {
    TwoFieldsText(fields[2..]);
    assert fields[1..][1..] == fields[2..];
  }

  lemma OneMoreField(start: seq<Token>, fields: seq<Field>, f: Field)
    requires fields != []
    ensures start + PrintFields(fields) + [Comma] + [StrTok(f.name), Colon] + Print(f.value) == start + PrintFields(fields + [f])
  {
    PrintSnocField(fields, f);
    Associate(start, PrintFields(fields), [Comma], PrintField(f));
    assert start + PrintFields(fields) + [Comma] + [StrTok(f.name), Colon] + Print(f.value)
        == start + PrintFields(fields) + [Comma] + ([StrTok(f.name), Colon] + Print(f.value));
  }

  lemma {:induction false} PrintSnocField(fields: seq<Field>, f: Field)
    requires fields != []
    ensures PrintFields(fields + [f]) == PrintFields(fields) + [Comma] + PrintField(f)
  {
    var all := fields + [f];
    assert all[1..] == fields[1..] + [f];
    if |fields| > 1 {
      PrintSnocField(fields[1..], f);
    }
  }

  lemma OneMoreItem(start: seq<Token>, us: seq<Option<Err>>, i: nat)
    requires i < |us|
    ensures start + PrintItems(JsonOfAll(us[..i])) + (if i > 0 then [Comma] else []) + Print(JsonOfOpt(us[i]))
         == start + PrintItems(JsonOfAll(us[..i + 1]))
  {
    JsonOfTake(us, i);
    AppendItem(start, JsonOfAll(us[..i]), JsonOfOpt(us[i]));
  }

  lemma AppendItem(start: seq<Token>, items: seq<Json>, j: Json)
    ensures start + PrintItems(items) + (if |items| > 0 then [Comma] else []) + Print(j) == start + PrintItems(items + [j])
  {
    PrintSnocItem(items, j);
    Associate(start, PrintItems(items), if |items| > 0 then [Comma] else [], Print(j));
  }

  lemma Associate<T>(a: seq<T>, b: seq<T>, c: seq<T>, d: seq<T>)
    ensures a + b + c + d == a + (b + c + d)
  {
  }

  lemma JsonOfTake(us: seq<Option<Err>>, i: nat)
    requires i < |us|
    ensures JsonOfAll(us[..i + 1]) == JsonOfAll(us[..i]) + [JsonOfOpt(us[i])] && |JsonOfAll(us[..i])| == i
  {
    assert us[..i + 1] == us[..i] + [us[i]];
    JsonOfSnoc(us[..i], us[i]);
  }

  lemma {:induction false} JsonOfSnoc(us: seq<Option<Err>>, u: Option<Err>)
    ensures JsonOfAll(us + [u]) == JsonOfAll(us) + [JsonOfOpt(u)] && |JsonOfAll(us)| == |us|
  {
    if us != [] {
      assert (us + [u])[1..] == us[1..] + [u];
      JsonOfSnoc(us[1..], u);
    }
  }

  lemma {:induction false} PrintSnocItem(items: seq<Json>, j: Json)
    ensures PrintItems(items + [j]) == PrintItems(items) + (if items == [] then [] else [Comma]) + Print(j)
  {
    if items != [] {
      assert (items + [j])[1..] == items[1..] + [j];
      PrintSnocItem(items[1..], j);
    }
  }

  method Marshal(e: Option<Err>) returns (rtn: seq<Token>)
    ensures rtn == Marshaled(e)
  {
    if e == None {
      return [NullTok];
    }
    var stream := new Stream();
    var panicked := stream.WriteErr(e.value);
    if panicked {
      return PanicText();
    }
    return stream.out;
  }
}
