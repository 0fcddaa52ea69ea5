/** The token stream that errors are written to, and the JSON trees it stands for. */
module ErrorText {
  import opened Wrappers
  import opened ErrorTree

  /** Tokens of JSON text. Junk is text that is no token. */
  datatype Token =
    | NullTok
    | NumTok(n: int)
    | StrTok(s: string)
    | Comma
    | Colon
    | OpenBrace
    | CloseBrace
    | OpenBracket
    | CloseBracket
    | Junk(s: string)

  /** The text of a JSON tree. */
  function Print(j: Json): (ts: seq<Token>)
    ensures ts != []
    ensures ts[0] != CloseBracket && ts[0] != CloseBrace
    decreases j, 1
  {
    match j
    case Null => [NullTok]
    case Num(n) => [NumTok(n)]
    case Str(s) => [StrTok(s)]
    case Arr(items) => [OpenBracket] + PrintItems(items) + [CloseBracket]
    case Obj(fields) => [OpenBrace] + PrintFields(fields) + [CloseBrace]
  }

  function PrintItems(items: seq<Json>): seq<Token>
    decreases items, 0
  {
    if items == [] then []
    else if |items| == 1 then Print(items[0])
    else Print(items[0]) + [Comma] + PrintItems(items[1..])
  }

  function PrintField(f: Field): seq<Token>
    decreases f, 0
  {
    [StrTok(f.name), Colon] + Print(f.value)
  }

  function PrintFields(fields: seq<Field>): seq<Token>
    decreases fields, 0
  {
    if fields == [] then []
    else if |fields| == 1 then PrintField(fields[0])
    else PrintField(fields[0]) + [Comma] + PrintFields(fields[1..])
  }

  datatype Parsed<T> = Bad | Good(value: T, rest: seq<Token>)

  /** Reads one JSON value off the front of a text. */
  function Parse(ts: seq<Token>): (r: Parsed<Json>)
    ensures r.Good? ==> |r.rest| < |ts|
    decreases |ts|, 1
  {
    if ts == [] then Bad
    else
      match ts[0]
      case NullTok => Good(Null, ts[1..])
      case NumTok(n) => Good(Num(n), ts[1..])
      case StrTok(s) => Good(Str(s), ts[1..])
      case OpenBracket =>
        if |ts| > 1 && ts[1] == CloseBracket then Good(Arr([]), ts[2..])
        else
          var r := ParseItems(ts[1..]);
          if r.Bad? then Bad else Good(Arr(r.value), r.rest)
      case OpenBrace =>
        if |ts| > 1 && ts[1] == CloseBrace then Good(Obj([]), ts[2..])
        else
          var r := ParseFields(ts[1..]);
          if r.Bad? then Bad else Good(Obj(r.value), r.rest)
      case _ => Bad
  }

  /** One or more items and the closing bracket. */
  function ParseItems(ts: seq<Token>): (r: Parsed<seq<Json>>)
    ensures r.Good? ==> |r.rest| < |ts|
    decreases |ts|, 2
  {
    var v := Parse(ts);
    if v.Bad? || v.rest == [] then Bad
    else if v.rest[0] == CloseBracket then Good([v.value], v.rest[1..])
    else if v.rest[0] == Comma then
      var r := ParseItems(v.rest[1..]);
      if r.Bad? then Bad else Good([v.value] + r.value, r.rest)
    else Bad
  }

  /** One or more fields and the closing brace. */
  function ParseFields(ts: seq<Token>): (r: Parsed<seq<Field>>)
    ensures r.Good? ==> |r.rest| < |ts|
    decreases |ts|, 2
  {
    if |ts| < 2 || !ts[0].StrTok? || ts[1] != Colon then Bad
    else
      var v := Parse(ts[2..]);
      if v.Bad? || v.rest == [] then Bad
      else if v.rest[0] == CloseBrace then Good([Field(ts[0].s, v.value)], v.rest[1..])
      else if v.rest[0] == Comma then
        var r := ParseFields(v.rest[1..]);
        if r.Bad? then Bad else Good([Field(ts[0].s, v.value)] + r.value, r.rest)
      else Bad
  }

  /** A printed tree is read back, whatever follows it. */
  lemma {:induction false} ParseOfPrint(j: Json, rest: seq<Token>)
    ensures Parse(Print(j) + rest) == Good(j, rest)
    decreases j, 1
  {
    match j {
      case Null => assert (Print(j) + rest)[1..] == rest;
      case Num(_) => assert (Print(j) + rest)[1..] == rest;
      case Str(_) => assert (Print(j) + rest)[1..] == rest;
      case Arr(items) =>
        if items != [] {
          ParseItemsOfPrint(items, rest);
        }
        ParseBracketed(items, rest);
      case Obj(fields) =>
        if fields != [] {
          ParseFieldsOfPrint(fields, rest);
        }
        ParseBraced(fields, rest);
    }
  }

  lemma ParseBracketed(items: seq<Json>, rest: seq<Token>)
    requires items != [] ==> ParseItems(PrintItems(items) + [CloseBracket] + rest) == Good(items, rest)
    ensures Parse(Print(Arr(items)) + rest) == Good(Arr(items), rest)
  {
    var ts := Print(Arr(items)) + rest;
    assert ts[1..] == PrintItems(items) + [CloseBracket] + rest;
    if items == [] {
      assert ts[2..] == rest;
    } else {
      PrintItemsStart(items);
    }
  }

  lemma ParseBraced(fields: seq<Field>, rest: seq<Token>)
    requires fields != [] ==> ParseFields(PrintFields(fields) + [CloseBrace] + rest) == Good(fields, rest)
    ensures Parse(Print(Obj(fields)) + rest) == Good(Obj(fields), rest)
  {
    var ts := Print(Obj(fields)) + rest;
    assert ts[1..] == PrintFields(fields) + [CloseBrace] + rest;
    if fields == [] {
      assert ts[2..] == rest;
    } else {
      PrintFieldsStart(fields);
    }
  }

  lemma PrintItemsStart(items: seq<Json>)
    requires items != []
    ensures PrintItems(items) != [] && PrintItems(items)[0] != CloseBracket
  {
  }

  lemma PrintFieldsStart(fields: seq<Field>)
    requires fields != []
    ensures PrintFields(fields) != [] && PrintFields(fields)[0] != CloseBrace
  {
  }

  lemma LastItem(ts: seq<Token>, v: Json, rest: seq<Token>)
    requires Parse(ts) == Good(v, [CloseBracket] + rest)
    ensures ParseItems(ts) == Good([v], rest)
  {
    assert ([CloseBracket] + rest)[1..] == rest;
  }

  lemma NextItem(ts: seq<Token>, v: Json, more: seq<Token>, vs: seq<Json>, rest: seq<Token>)
    requires Parse(ts) == Good(v, [Comma] + more) && ParseItems(more) == Good(vs, rest)
    ensures ParseItems(ts) == Good([v] + vs, rest)
  {
    assert ([Comma] + more)[1..] == more;
  }

  lemma ItemsText(items: seq<Json>, rest: seq<Token>)
    requires items != []
    ensures PrintItems(items) + [CloseBracket] + rest == Print(items[0]) +
            if |items| == 1 then [CloseBracket] + rest else [Comma] + (PrintItems(items[1..]) + [CloseBracket] + rest)
  {
    if |items| > 1 {
      RegroupFive(Print(items[0]), [Comma], PrintItems(items[1..]), [CloseBracket], rest);
    }
  }

  lemma {:induction false} ParseItemsOfPrint(items: seq<Json>, rest: seq<Token>)
    requires items != []
    ensures ParseItems(PrintItems(items) + [CloseBracket] + rest) == Good(items, rest)
    decreases items, 0
  {
    ItemsText(items, rest);
    HeadAndTail(items);
    var ts := PrintItems(items) + [CloseBracket] + rest;
    if |items| == 1 {
      ParseOfPrint(items[0], [CloseBracket] + rest);
      LastItem(ts, items[0], rest);
    } else {
      var more := PrintItems(items[1..]) + [CloseBracket] + rest;
      ParseOfPrint(items[0], [Comma] + more);
      ParseItemsOfPrint(items[1..], rest);
      NextItem(ts, items[0], more, items[1..], rest);
    }
  }

  lemma LastField(ts: seq<Token>, f: Field, rest: seq<Token>)
    requires |ts| > 2 && ts[0] == StrTok(f.name) && ts[1] == Colon
    requires Parse(ts[2..]) == Good(f.value, [CloseBrace] + rest)
    ensures ParseFields(ts) == Good([f], rest)
  {
    assert ([CloseBrace] + rest)[1..] == rest;
  }

  lemma NextField(ts: seq<Token>, f: Field, more: seq<Token>, fs: seq<Field>, rest: seq<Token>)
    requires |ts| > 2 && ts[0] == StrTok(f.name) && ts[1] == Colon
    requires Parse(ts[2..]) == Good(f.value, [Comma] + more) && ParseFields(more) == Good(fs, rest)
    ensures ParseFields(ts) == Good([f] + fs, rest)
  {
    assert ([Comma] + more)[1..] == more;
  }

  lemma FieldsText(fields: seq<Field>, rest: seq<Token>)
    requires fields != []
    ensures PrintFields(fields) + [CloseBrace] + rest == PrintField(fields[0]) +
            if |fields| == 1 then [CloseBrace] + rest else [Comma] + (PrintFields(fields[1..]) + [CloseBrace] + rest)
  {
    if |fields| > 1 {
      RegroupFive(PrintField(fields[0]), [Comma], PrintFields(fields[1..]), [CloseBrace], rest);
    }
  }

  lemma {:induction false} ParseFieldsOfPrint(fields: seq<Field>, rest: seq<Token>)
    requires fields != []
    ensures ParseFields(PrintFields(fields) + [CloseBrace] + rest) == Good(fields, rest)
    decreases fields, 0
  {
    FieldsText(fields, rest);
    HeadAndTail(fields);
    var ts := PrintFields(fields) + [CloseBrace] + rest;
    if |fields| == 1 {
      ParseFieldValue(fields[0], ts, [CloseBrace] + rest);
      LastField(ts, fields[0], rest);
    } else {
      var more := PrintFields(fields[1..]) + [CloseBrace] + rest;
      ParseFieldValue(fields[0], ts, [Comma] + more);
      ParseFieldsOfPrint(fields[1..], rest);
      NextField(ts, fields[0], more, fields[1..], rest);
    }
  }

  lemma FieldText(f: Field, rest: seq<Token>)
    ensures PrintField(f) + rest == [StrTok(f.name), Colon] + (Print(f.value) + rest)
  {
  }

  lemma {:induction false} ParseFieldValue(f: Field, ts: seq<Token>, rest: seq<Token>)
    requires ts == PrintField(f) + rest
    ensures |ts| > 2 && ts[0] == StrTok(f.name) && ts[1] == Colon && Parse(ts[2..]) == Good(f.value, rest)
    decreases f, 2
  {
    FieldText(f, rest);
    var value := Print(f.value) + rest;
    assert ts[2..] == value;
    ParseOfPrint(f.value, rest);
  }
}
