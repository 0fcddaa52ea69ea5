/** Reading errors back from JSON (rony/errs/errmarshalling/marshal.go, fallback.go,
    rony/errs/error_internal.go). */
module ErrorDecoder {
  import opened Wrappers
  import opened ErrorTree
  import opened ErrorText
  import opened ErrorCodec

  /** What reading yields: an error to report, a panic, or the value read. */
  datatype Read<T> = Failed | Panicked | Decoded(value: T)

  /** The name that selects the decoder, the first field of that key that holds a string. */
  function TypeName(j: Json): Option<string> {
    if j.Obj? then TypeNameIn(j.fields) else None
  }

  function TypeNameIn(fields: seq<Field>): Option<string> {
    if fields == [] then None
    else if fields[0].name != TYPE_KEY then TypeNameIn(fields[1..])
    else if fields[0].value.Str? then Some(fields[0].value.s)
    else None
  }

  /** ReadString: null reads as the empty string. */
  function ReadString(j: Json): Read<string> {
    match j
    case Str(s) => Decoded(s)
    case Null => Decoded("")
    case _ => Failed
  }

  /** ReadVal into a metadata map. */
  function ReadMeta(meta: Meta, j: Json): Read<Meta> {
    match j
    case Null => Decoded(NoMeta)
    case Obj(fields) => Decoded(Encodable(false, (if meta.Encodable? then meta.fields else []) + fields))
    case _ => Failed
  }

  // The decoders as functions. Fields are read in order, the first problem decides.

  function Decode(j: Json): Read<Err>
    decreases j, 3
  {
    if TypeName(j) == Some(FALLBACK_TYPE) then Finish(ReadFallback(j.fields, Partial("", None, [])))
    else if TypeName(j) == Some(ERRS_TYPE) then ReadErrs(j.fields, Errs(0, "", "", None, NoMeta, None))
    else Failed
  }

  /** The variables of the fallback decoder. */
  datatype Partial = Partial(errMsg: string, wrapped: Option<Err>, wrappedList: seq<Option<Err>>)

  function Finish(r: Read<Partial>): Read<Err> {
    match r
    case Failed => Failed
    case Panicked => Panicked
    case Decoded(p) => Decoded(Build(p))
  }

  function Build(p: Partial): Err {
    if p.wrappedList != [] then Opaque("*fallbackMultiWrapErr", p.errMsg, Many(p.wrappedList))
    else if p.wrapped.Some? then Opaque("*fallbackSingleWrapErr", p.errMsg, One(p.wrapped))
    else Opaque("*errorString", p.errMsg, Nothing)
  }

  function ReadFallback(fields: seq<Field>, p: Partial): Read<Partial>
    decreases fields, 2
  {
    if fields == [] then Decoded(p)
    else
      match FallbackField(fields[0], p)
      case Failed => Failed
      case Panicked => Panicked
      case Decoded(q) => ReadFallback(fields[1..], q)
  }

  function FallbackField(f: Field, p: Partial): Read<Partial>
    decreases f, 1
  {
    if f.name == ITEM_KEY then
      match ReadString(f.value)
      case Decoded(s) => Decoded(p.(errMsg := s))
      case _ => Failed
    else if f.name == WRAPPED_KEY then
      match f.value
      case Arr(items) =>
        (match ReadList(items, p.wrappedList)
        case Failed => Failed
        case Panicked => Panicked
        case Decoded(us) => Decoded(p.(wrappedList := us)))
      case Obj(_) =>
        (match Decode(f.value)
        case Failed => Failed
        case Panicked => Panicked
        case Decoded(u) => Decoded(p.(wrapped := Some(u))))
      case _ => Failed
    else Decoded(p)
  }

  function ReadList(items: seq<Json>, us: seq<Option<Err>>): Read<seq<Option<Err>>>
    decreases items, 0
  {
    if items == [] then Decoded(us)
    else
      match Decode(items[0])
      case Failed => Failed
      case Panicked => Panicked
      case Decoded(u) => ReadList(items[1..], us + [Some(u)])
  }

  function ReadErrs(fields: seq<Field>, e: Err): (r: Read<Err>)
    requires e.Errs?
    ensures r.Decoded? ==> r.value.Errs?
    decreases fields, 2
  {
    if fields == [] then Decoded(e)
    else
      match ErrsField(fields[0], e)
      case Failed => Failed
      case Panicked => Panicked
      case Decoded(d) => ReadErrs(fields[1..], d)
  }

  /** One field of an `*errs.Error`; looking up the name of an invalid code panics. */
  function ErrsField(f: Field, e: Err): (r: Read<Err>)
    requires e.Errs?
    ensures r.Decoded? ==> r.value.Errs?
    decreases f, 1
  {
    if f.name == "code" then
      if !f.value.Num? then Failed
      else if !ValidCode(f.value.n) then Panicked
      else Decoded(e.(code := f.value.n, codeName := CodeName(f.value.n)))
    else if f.name == ITEM_KEY then
      match ReadString(f.value)
      case Decoded(s) => Decoded(e.(item := s))
      case _ => Failed
    else if f.name == "meta" then
      match ReadMeta(e.meta, f.value)
      case Decoded(m) => Decoded(e.(meta := m))
      case _ => Failed
    else if f.name == WRAPPED_KEY then
      match Decode(f.value)
      case Failed => Failed
      case Panicked => Panicked
      case Decoded(u) => Decoded(e.(underlying := Some(u)))
    else Decoded(e)
  }

  /** What Unmarshal makes of a text. */
  function Unmarshaled(ts: seq<Token>): Read<Err> {
    var p := Parse(ts);
    if p.Bad? then Failed else Decode(p.value)
  }

  // The decoders as the loops they are.

  method Unmarshal(ts: seq<Token>) returns (r: Read<Err>)
    ensures r == Unmarshaled(ts)
  {
    var p := Parse(ts);
    if p.Bad? {
      return Failed;
    }
    r := UnmarshalError(p.value);
  }

  /** Dispatch on the type name. */
  method UnmarshalError(j: Json) returns (r: Read<Err>)
    ensures r == Decode(j)
    decreases j, 3
  {
    var name := TypeName(j);
    if name == Some(FALLBACK_TYPE) {
      r := FallbackUnmarshal(j.fields);
    } else if name == Some(ERRS_TYPE) {
      r := ErrsUnmarshal(j.fields);
    } else {
      r := Failed;
    }
  }

  method FallbackUnmarshal(fields: seq<Field>) returns (r: Read<Err>)
    ensures r == Finish(ReadFallback(fields, Partial("", None, [])))
    decreases fields, 2
  {
    var errMsg, wrapped, wrappedList := "", None, [];
    var i := 0;
    while i < |fields|
      invariant 0 <= i <= |fields|
      invariant ReadFallback(fields, Partial("", None, [])) == ReadFallback(fields[i..], Partial(errMsg, wrapped, wrappedList))
    {
      var f := fields[i];
      assert fields[i..][0] == f && fields[i..][1..] == fields[i + 1..];
      if f.name == ITEM_KEY {
        var s := ReadString(f.value);
        if !s.Decoded? {
          return Failed;
        }
        errMsg := s.value;
      } else if f.name == WRAPPED_KEY {
        match f.value {
          case Arr(items) =>
            var list := ReadWrappedList(f, wrappedList);
            if list.Failed? {
              return Failed;
            }
            if list.Panicked? {
              return Panicked;
            }
            wrappedList := list.value;
          case Obj(_) =>
            var u := UnmarshalField(f);
            if !u.Decoded? {
              return u;
            }
            wrapped := Some(u.value);
          case _ =>
            return Failed;
        }
      }
      i := i + 1;
    }
    return Decoded(Build(Partial(errMsg, wrapped, wrappedList)));
  }

  method UnmarshalField(f: Field) returns (r: Read<Err>)
    ensures r == Decode(f.value)
    decreases f, 1
  {
    r := UnmarshalError(f.value);
  }

  method ReadWrappedList(f: Field, before: seq<Option<Err>>) returns (r: Read<seq<Option<Err>>>)
    requires f.value.Arr?
    ensures r == ReadList(f.value.items, before)
    decreases f, 1
  {
    var items, wrappedList := f.value.items, before;
    var i := 0;
    while i < |items|
      invariant 0 <= i <= |items|
      invariant ReadList(items, before) == ReadList(items[i..], wrappedList)
    {
      assert items[i..][0] == items[i] && items[i..][1..] == items[i + 1..];
      var u := UnmarshalError(items[i]);
      if u.Failed? {
        return Failed;
      }
      if u.Panicked? {
        return Panicked;
      }
      wrappedList := wrappedList + [Some(u.value)];
      i := i + 1;
    }
    return Decoded(wrappedList);
  }

  method ErrsUnmarshal(fields: seq<Field>) returns (r: Read<Err>)
    ensures r == ReadErrs(fields, Errs(0, "", "", None, NoMeta, None))
    decreases fields, 2
  {
    var e := Errs(0, "", "", None, NoMeta, None);
    ghost var zero := e;
    var i := 0;
    while i < |fields|
      invariant 0 <= i <= |fields| && e.Errs?
      invariant ReadErrs(fields, zero) == ReadErrs(fields[i..], e)
    {
      var f := fields[i];
      assert fields[i..][0] == f && fields[i..][1..] == fields[i + 1..];
      if f.name == "code" {
        if !f.value.Num? {
          return Failed;
        }
        if !ValidCode(f.value.n) {
          return Panicked;
        }
        e := e.(code := f.value.n, codeName := CodeName(f.value.n));
      } else if f.name == ITEM_KEY {
        var s := ReadString(f.value);
        if !s.Decoded? {
          return Failed;
        }
        e := e.(item := s.value);
      } else if f.name == "meta" {
        var m := ReadMeta(e.meta, f.value);
        if !m.Decoded? {
          return Failed;
        }
        e := e.(meta := m.value);
      } else if f.name == WRAPPED_KEY {
        var u := UnmarshalField(f);
        if !u.Decoded? {
          return u;
        }
        e := e.(underlying := Some(u.value));
      }
      i := i + 1;
    }
    return Decoded(e);
  }
}
