/** Workflow filters as text (flow/workflow_filter.go), and a reader of the filter language: AND
    binds tighter than OR, parentheses group, values are in single quotes. */
module FilterPrinter {

  import opened Wrappers

  datatype Op = Greater | Less | Equal | StartsWith

  /** A filter. */
  datatype Filter =
    | Compare(op: Op, name: string, value: string)
    | In(name: string, values: seq<string>)
    | And(left: Filter, right: Filter)
    | Or(left: Filter, right: Filter)

  // The functions that make text.

  predicate Contains(s: string, sub: string) {
    exists i :: 0 <= i <= |s| && StartsAt(s, i, sub)
  }

  predicate StartsAt(s: string, i: nat, sub: string)
    requires i <= |s|
  {
    sub <= s[i..]
  }

  function TrimLeft(s: string): string {
    if s != "" && s[0] == '\'' then TrimLeft(s[1..]) else s
  }

  function TrimRight(s: string): string {
    if s != "" && s[|s| - 1] == '\'' then TrimRight(s[..|s| - 1]) else s
  }

  /** A value without the quotes around it. */
  function Trim(s: string): string {
    TrimRight(TrimLeft(s))
  }

  function Parenthesized(s: string): string {
    if Contains(s, "AND") || Contains(s, "OR") then "(" + s + ")" else s
  }

  function AND(a: string, b: string): string {
    Parenthesized(a) + " AND " + Parenthesized(b)
  }

  function OR(a: string, b: string): string {
    Parenthesized(a) + " OR " + Parenthesized(b)
  }

  function Quoted(value: string): string {
    "'" + Trim(value) + "'"
  }

  function OpText(op: Op): string {
    match op
    case Greater => ">"
    case Less => "<"
    case Equal => "="
    case StartsWith => "STARTS_WITH"
  }

  function COMPARE(op: Op, name: string, value: string): string {
    name + " " + OpText(op) + " " + Quoted(value)
  }

  function IN(name: string, values: seq<string>): string {
    name + " IN (" + Joined(values) + ")"
  }

  function Joined(values: seq<string>): string {
    if values == [] then ""
    else if |values| == 1 then Quoted(values[0])
    else Quoted(values[0]) + ", " + Joined(values[1..])
  }

  /** The text made for a filter. */
  function Print(f: Filter): string {
    match f
    case Compare(op, name, value) => COMPARE(op, name, value)
    case In(name, values) => IN(name, values)
    case And(a, b) => AND(Print(a), Print(b))
    case Or(a, b) => OR(Print(a), Print(b))
  }

  // The filter language.

  datatype Token = Word(w: string) | Str(s: string) | Open | Close | Comma

  predicate IsSpecial(c: char) {
    c == ' ' || c == '(' || c == ')' || c == ',' || c == '\''
  }

  /** The length of the run of characters at the front that are not special. */
  function WordLength(s: string): (n: nat)
    ensures n <= |s|
  {
    if s == "" || IsSpecial(s[0]) then 0 else 1 + WordLength(s[1..])
  }

  /** The position of the first quote. */
  function QuoteAt(s: string): Option<nat> {
    if s == "" then None
    else if s[0] == '\'' then Some(0)
    else match QuoteAt(s[1..]) { case None => None case Some(n) => Some(n + 1) }
  }

  lemma {:induction false} QuoteAtIsFirst(s: string)
    ensures QuoteAt(s).Some? ==> QuoteAt(s).value < |s| && QuoteFree(s[..QuoteAt(s).value])
  {
    if s != "" && s[0] != '\'' {
      QuoteAtIsFirst(s[1..]);
      if QuoteAt(s).Some? {
        assert s[..QuoteAt(s).value] == [s[0]] + s[1..][..QuoteAt(s).value - 1];
      }
    }
  }

  function Push(t: Token, ts: Option<seq<Token>>): Option<seq<Token>> {
    if ts == None then None else Some([t] + ts.value)
  }

  /** The tokens of a text. */
  function Lex(s: string): (r: Option<seq<Token>>)
    ensures r.Some? ==> FreeTokens(r.value)
    decreases |s|
  {
    if s == "" then Some([])
    else
      match s[0]
      case ' ' => Lex(s[1..])
      case '(' => Push(Open, Lex(s[1..]))
      case ')' => Push(Close, Lex(s[1..]))
      case ',' => Push(Comma, Lex(s[1..]))
      case '\'' =>
        QuoteAtIsFirst(s[1..]);
        var q := QuoteAt(s[1..]);
        if q == None then None else Push(Str(s[1..][..q.value]), Lex(s[1..][q.value + 1..]))
      case _ => Push(Word(s[..WordLength(s)]), Lex(s[WordLength(s)..]))
  }

  datatype Parsed = Bad | Good(filter: Filter, rest: seq<Token>)

  /** Terms joined by OR. */
  function ParseOr(ts: seq<Token>): (r: Parsed)
    ensures r.Good? ==> |r.rest| < |ts|
    ensures r.Good? && FreeTokens(ts) ==> Free(r.filter) && FreeTokens(r.rest)
    decreases |ts|, 4
  {
    var a := ParseAnd(ts);
    if a.Bad? then Bad else MoreOr(a.filter, a.rest)
  }

  function MoreOr(left: Filter, ts: seq<Token>): (r: Parsed)
    ensures r.Good? ==> |r.rest| <= |ts|
    ensures r.Good? && Free(left) && FreeTokens(ts) ==> Free(r.filter) && FreeTokens(r.rest)
    decreases |ts|, 3
  {
    if ts == [] || ts[0] != Word("OR") then Good(left, ts)
    else
      var b := ParseAnd(ts[1..]);
      if b.Bad? then Bad else MoreOr(Or(left, b.filter), b.rest)
  }

  /** Factors joined by AND. */
  function ParseAnd(ts: seq<Token>): (r: Parsed)
    ensures r.Good? ==> |r.rest| < |ts|
    ensures r.Good? && FreeTokens(ts) ==> Free(r.filter) && FreeTokens(r.rest)
    decreases |ts|, 2
  {
    var a := ParseFactor(ts);
    if a.Bad? then Bad else MoreAnd(a.filter, a.rest)
  }

  function MoreAnd(left: Filter, ts: seq<Token>): (r: Parsed)
    ensures r.Good? ==> |r.rest| <= |ts|
    ensures r.Good? && Free(left) && FreeTokens(ts) ==> Free(r.filter) && FreeTokens(r.rest)
    decreases |ts|, 1
  {
    if ts == [] || ts[0] != Word("AND") then Good(left, ts)
    else
      var b := ParseFactor(ts[1..]);
      if b.Bad? then Bad else MoreAnd(And(left, b.filter), b.rest)
  }

  /** A filter in parentheses or a comparison. */
  function ParseFactor(ts: seq<Token>): (r: Parsed)
    ensures r.Good? ==> |r.rest| < |ts|
    ensures r.Good? && FreeTokens(ts) ==> Free(r.filter) && FreeTokens(r.rest)
    decreases |ts|, 0
  {
    if ts != [] && ts[0] == Open then
      var f := ParseOr(ts[1..]);
      if f.Bad? || f.rest == [] || f.rest[0] != Close then Bad else Good(f.filter, f.rest[1..])
    else ParseComparison(ts)
  }

  function ParseOp(t: Token): Option<Op> {
    if t == Word(">") then Some(Greater)
    else if t == Word("<") then Some(Less)
    else if t == Word("=") then Some(Equal)
    else if t == Word("STARTS_WITH") then Some(StartsWith)
    else None
  }

  function ParseComparison(ts: seq<Token>): (r: Parsed)
    ensures r.Good? ==> |r.rest| < |ts|
    ensures r.Good? && FreeTokens(ts) ==> Free(r.filter) && FreeTokens(r.rest)
  {
    if |ts| < 3 || !ts[0].Word? then Bad
    else if ParseOp(ts[1]).Some? && ts[2].Str? then Good(Compare(ParseOp(ts[1]).value, ts[0].w, ts[2].s), ts[3..])
    else if ts[1] == Word("IN") && ts[2] == Open then
      match ParseValues(ts[3..])
      case None => Bad
      case Some((vs, rest)) => Good(In(ts[0].w, vs), rest)
    else Bad
  }

  /** Quoted values with commas between them and a closing parenthesis. */
  function ParseValues(ts: seq<Token>): (r: Option<(seq<string>, seq<Token>)>)
    ensures r.Some? ==> |r.value.1| < |ts|
    ensures r.Some? && FreeTokens(ts) ==> FreeTokens(r.value.1) && forall i :: 0 <= i < |r.value.0| ==> QuoteFree(r.value.0[i])
  {
    if ts != [] && ts[0] == Close then Some(([], ts[1..])) else ParseMoreValues(ts)
  }

  function ParseMoreValues(ts: seq<Token>): (r: Option<(seq<string>, seq<Token>)>)
    ensures r.Some? ==> |r.value.1| < |ts|
    ensures r.Some? && FreeTokens(ts) ==> FreeTokens(r.value.1) && forall i :: 0 <= i < |r.value.0| ==> QuoteFree(r.value.0[i])
  {
    if |ts| < 2 || !ts[0].Str? then None
    else if ts[1] == Close then Some(([ts[0].s], ts[2..]))
    else if ts[1] == Comma then
      match ParseMoreValues(ts[2..])
      case None => None
      case Some((vs, rest)) => Some(([ts[0].s] + vs, rest))
    else None
  }

  /** Reads a text as a filter. */
  function Read(s: string): Option<Filter> {
    var ts := Lex(s);
    if ts == None then None
    else
      var r := ParseOr(ts.value);
      if r.Bad? || r.rest != [] then None else Some(r.filter)
  }

  // Filters that can be written.

  /** A name: not empty, and a single word. */
  predicate IsName(s: string) {
    s != "" && forall i :: 0 <= i < |s| ==> !IsSpecial(s[i])
  }

  predicate QuoteFree(s: string) {
    forall i :: 0 <= i < |s| ==> s[i] != '\''
  }

  predicate Named(f: Filter) {
    match f
    case Compare(_, name, _) => IsName(name)
    case In(name, _) => IsName(name)
    case And(a, b) => Named(a) && Named(b)
    case Or(a, b) => Named(a) && Named(b)
  }

  /** No value has a quote in it. */
  predicate Free(f: Filter) {
    match f
    case Compare(_, _, value) => QuoteFree(value)
    case In(_, values) => forall i :: 0 <= i < |values| ==> QuoteFree(values[i])
    case And(a, b) => Free(a) && Free(b)
    case Or(a, b) => Free(a) && Free(b)
  }

  predicate FreeTokens(ts: seq<Token>) {
    forall i :: 0 <= i < |ts| && ts[i].Str? ==> QuoteFree(ts[i].s)
  }

  /** A filter with the quotes around its values dropped. */
  function Trimmed(f: Filter): Filter {
    match f
    case Compare(op, name, value) => Compare(op, name, Trim(value))
    case In(name, values) => In(name, TrimAll(values))
    case And(a, b) => And(Trimmed(a), Trimmed(b))
    case Or(a, b) => Or(Trimmed(a), Trimmed(b))
  }

  function TrimAll(values: seq<string>): seq<string> {
    if values == [] then [] else [Trim(values[0])] + TrimAll(values[1..])
  }

  // The tokens of a printed filter.

  function Tokens(f: Filter): seq<Token>
    decreases f, 0
  {
    match f
    case Compare(op, name, value) => [Word(name), Word(OpText(op)), Str(Trim(value))]
    case In(name, values) => [Word(name), Word("IN"), Open] + ValueTokens(values) + [Close]
    case And(a, b) => Operand(a) + [Word("AND")] + Operand(b)
    case Or(a, b) => Operand(a) + [Word("OR")] + Operand(b)
  }

  function Operand(f: Filter): seq<Token>
    decreases f, 1
  {
    if Contains(Print(f), "AND") || Contains(Print(f), "OR") then [Open] + Tokens(f) + [Close] else Tokens(f)
  }

  function ValueTokens(values: seq<string>): seq<Token> {
    if values == [] then []
    else if |values| == 1 then [Str(Trim(values[0]))]
    else [Str(Trim(values[0]))] + [Comma] + ValueTokens(values[1..])
  }

  function Lift(ts: seq<Token>, more: Option<seq<Token>>): Option<seq<Token>> {
    if more == None then None else Some(ts + more.value)
  }

  lemma LiftTwice(a: seq<Token>, b: seq<Token>, more: Option<seq<Token>>)
    ensures Lift(a, Lift(b, more)) == Lift(a + b, more)
  {
    if more.Some? {
      assert a + (b + more.value) == a + b + more.value;
    }
  }

  lemma LiftThree(a: seq<Token>, b: Token, c: seq<Token>, more: Option<seq<Token>>)
    ensures Lift(a, Lift([b], Lift(c, more))) == Lift(a + [b] + c, more)
  {
    if more.Some? {
      assert a + ([b] + (c + more.value)) == a + [b] + c + more.value;
    }
  }

  lemma LexSpace(rest: string)
    ensures Lex(" " + rest) == Lex(rest)
  {
    assert (" " + rest)[1..] == rest;
  }

  lemma {:induction false} WordLengthOf(w: string, rest: string)
    requires forall i :: 0 <= i < |w| ==> !IsSpecial(w[i])
    requires rest == "" || IsSpecial(rest[0])
    ensures WordLength(w + rest) == |w|
    decreases |w|
  {
    if w == "" {
      assert w + rest == rest;
    } else {
      assert (w + rest)[1..] == w[1..] + rest;
      WordLengthOf(w[1..], rest);
    }
  }

  lemma LexWord(w: string, rest: string)
    requires IsName(w) && (rest == "" || IsSpecial(rest[0]))
    ensures Lex(w + rest) == Lift([Word(w)], Lex(rest))
  {
    WordLengthOf(w, rest);
    assert (w + rest)[..|w|] == w && (w + rest)[|w|..] == rest;
  }

  /** A word with a space behind it. */
  lemma LexWordSpace(w: string, rest: string)
    requires IsName(w)
    ensures Lex(w + " " + rest) == Lift([Word(w)], Lex(rest))
  {
    LexWord(w, " " + rest);
    assert w + " " + rest == w + (" " + rest);
    assert (" " + rest)[1..] == rest;
  }

  lemma {:induction false} QuoteAtOf(v: string, rest: string)
    requires QuoteFree(v)
    ensures QuoteAt(v + "'" + rest) == Some(|v|)
    decreases |v|
  {
    var s := v + "'" + rest;
    if v != "" {
      assert s[1..] == v[1..] + "'" + rest;
      QuoteAtOf(v[1..], rest);
    }
  }

  lemma LexString(v: string, rest: string)
    requires QuoteFree(v)
    ensures Lex("'" + v + "'" + rest) == Lift([Str(v)], Lex(rest))
  {
    var s := "'" + v + "'" + rest;
    assert s[1..] == v + "'" + rest;
    QuoteAtOf(v, rest);
    assert s[1..][..|v|] == v && s[1..][|v| + 1..] == rest;
  }

  lemma LexSymbol(c: char, t: Token, rest: string)
    requires (c == '(' && t == Open) || (c == ')' && t == Close) || (c == ',' && t == Comma)
    ensures Lex([c] + rest) == Lift([t], Lex(rest))
  {
    assert ([c] + rest)[1..] == rest;
  }

  lemma OpIsName(op: Op)
    ensures IsName(OpText(op)) && ParseOp(Word(OpText(op))) == Some(op)
  {
  }

  lemma LexCompare(op: Op, name: string, value: string, rest: string)
    requires IsName(name) && QuoteFree(Trim(value))
    ensures Lex(COMPARE(op, name, value) + rest) == Lift([Word(name), Word(OpText(op)), Str(Trim(value))], Lex(rest))
  {
    var quoted := "'" + Trim(value) + "'" + rest;
    assert COMPARE(op, name, value) + rest == name + " " + (OpText(op) + " " + quoted);
    OpIsName(op);
    LexString(Trim(value), rest);
    LexWordSpace(OpText(op), quoted);
    LexWordSpace(name, OpText(op) + " " + quoted);
    LiftTwice([Word(OpText(op))], [Str(Trim(value))], Lex(rest));
    LiftTwice([Word(name)], [Word(OpText(op))] + [Str(Trim(value))], Lex(rest));
    assert [Word(name)] + ([Word(OpText(op))] + [Str(Trim(value))]) == [Word(name), Word(OpText(op)), Str(Trim(value))];
  }

  predicate AllQuoteFree(values: seq<string>) {
    forall i :: 0 <= i < |values| ==> QuoteFree(Trim(values[i]))
  }

  lemma {:induction false} LexValues(values: seq<string>, rest: string)
    requires AllQuoteFree(values)
    ensures Lex(Joined(values) + rest) == Lift(ValueTokens(values), Lex(rest))
    decreases |values|
  {
    if values == [] {
      assert "" + rest == rest;
      if Lex(rest).Some? {
        assert [] + Lex(rest).value == Lex(rest).value;
      }
    } else if |values| == 1 {
      assert Joined(values) + rest == "'" + Trim(values[0]) + "'" + rest;
      LexString(Trim(values[0]), rest);
    } else {
      var more := Joined(values[1..]) + rest;
      ListText(Quoted(values[0]), Joined(values[1..]), rest);
      LexString(Trim(values[0]), "," + (" " + more));
      LexSymbol(',', Comma, " " + more);
      LexSpace(more);
      LexValues(values[1..], rest);
      LiftThree([Str(Trim(values[0]))], Comma, ValueTokens(values[1..]), Lex(rest));
    }
  }

  lemma ListText(first: string, others: string, rest: string)
    ensures first + ", " + others + rest == first + ("," + (" " + (others + rest)))
  {
    assert ", " == "," + " ";
  }

  lemma InText(name: string, list: string, rest: string)
    ensures name + " IN (" + list + ")" + rest == name + " " + ("IN" + " " + ("(" + (list + (")" + rest))))
  {
    assert " IN (" == " " + "IN" + " " + "(";
  }

  lemma BinaryText(a: string, op: string, b: string, rest: string)
    ensures a + (" " + op + " ") + b + rest == a + (" " + (op + " " + (b + rest)))
  {
  }

  lemma LiftFive(a: Token, b: Token, c: Token, d: seq<Token>, e: Token, more: Option<seq<Token>>)
    ensures Lift([a], Lift([b], Lift([c], Lift(d, Lift([e], more))))) == Lift([a, b, c] + d + [e], more)
  {
    if more.Some? {
      assert [a] + ([b] + ([c] + (d + ([e] + more.value)))) == [a, b, c] + d + [e] + more.value;
    }
  }

  lemma LexIn(name: string, values: seq<string>, rest: string)
    requires IsName(name) && AllQuoteFree(values)
    ensures Lex(IN(name, values) + rest) == Lift(Tokens(In(name, values)), Lex(rest))
  {
    var close := ")" + rest;
    var list := Joined(values) + close;
    InText(name, Joined(values), rest);
    LexWordSpace(name, "IN" + " " + ("(" + list));
    LexWordSpace("IN", "(" + list);
    LexSymbol('(', Open, list);
    LexValues(values, close);
    LexSymbol(')', Close, rest);
    LiftFive(Word(name), Word("IN"), Open, ValueTokens(values), Close, Lex(rest));
  }

  /** A printed filter is read as its tokens, whatever follows. */
  lemma {:induction false} LexPrint(f: Filter, rest: string)
    requires Named(f) && Free(Trimmed(f))
    ensures Lex(Print(f) + rest) == Lift(Tokens(f), Lex(rest))
    decreases f, 1
  {
    match f {
      case Compare(op, name, value) => LexCompare(op, name, value, rest);
      case In(name, values) =>
        TrimAllFree(values);
        LexIn(name, values, rest);
      case And(_, _) => LexBinary(f, rest);
      case Or(_, _) => LexBinary(f, rest);
    }
  }

  lemma {:induction false} TrimAllFree(values: seq<string>)
    requires forall i :: 0 <= i < |TrimAll(values)| ==> QuoteFree(TrimAll(values)[i])
    ensures AllQuoteFree(values)
    decreases |values|
  {
    if values != [] {
      assert TrimAll(values)[1..] == TrimAll(values[1..]);
      assert QuoteFree(TrimAll(values)[0]);
      forall i | 0 <= i < |TrimAll(values[1..])| ensures QuoteFree(TrimAll(values[1..])[i]) {
        assert TrimAll(values[1..])[i] == TrimAll(values)[i + 1];
      }
      TrimAllFree(values[1..]);
      assert forall i :: 0 < i < |values| ==> values[i] == values[1..][i - 1];
    }
  }

  function Operator(f: Filter): string {
    if f.And? then "AND" else "OR"
  }

  lemma PrintBinary(f: Filter)
    requires f.And? || f.Or?
    ensures Print(f) == Parenthesized(Print(f.left)) + (" " + Operator(f) + " ") + Parenthesized(Print(f.right))
  {
    assert " AND " == " " + "AND" + " ";
    assert " OR " == " " + "OR" + " ";
  }

  lemma {:induction false} LexBinary(f: Filter, rest: string)
    requires (f.And? || f.Or?) && Named(f) && Free(Trimmed(f))
    ensures Lex(Print(f) + rest) == Lift(Tokens(f), Lex(rest))
    decreases f, 0
  {
    PrintBinary(f);
    var pa, pb, op := Parenthesized(Print(f.left)), Parenthesized(Print(f.right)), Operator(f);
    BinaryText(pa, op, pb, rest);
    LexOperand(f.left, " " + (op + " " + (pb + rest)));
    LexSpace(op + " " + (pb + rest));
    LexWordSpace(op, pb + rest);
    LexOperand(f.right, rest);
    LiftThree(Operand(f.left), Word(op), Operand(f.right), Lex(rest));
  }

  lemma {:induction false} LexOperand(f: Filter, rest: string)
    requires Named(f) && Free(Trimmed(f))
    ensures Lex(Parenthesized(Print(f)) + rest) == Lift(Operand(f), Lex(rest))
    decreases f, 2
  {
    if Contains(Print(f), "AND") || Contains(Print(f), "OR") {
      assert Parenthesized(Print(f)) + rest == "(" + (Print(f) + (")" + rest));
      LexSymbol('(', Open, Print(f) + (")" + rest));
      LexPrint(f, ")" + rest);
      LexSymbol(')', Close, rest);
      LiftTwice(Tokens(f), [Close], Lex(rest));
      LiftTwice([Open], Tokens(f) + [Close], Lex(rest));
      assert [Open] + (Tokens(f) + [Close]) == Operand(f);
    } else {
      LexPrint(f, rest);
    }
  }

  // Reading the tokens back.

  lemma {:induction false} ParseValuesOf(values: seq<string>, rest: seq<Token>)
    requires values != []
    ensures ParseMoreValues(ValueTokens(values) + [Close] + rest) == Some((TrimAll(values), rest))
    decreases |values|
  {
    if |values| == 1 {
      assert ([Str(Trim(values[0]))] + [Close] + rest)[2..] == rest;
      assert TrimAll(values) == [Trim(values[0])];
    } else {
      var more := ValueTokens(values[1..]) + [Close] + rest;
      ParseValuesOf(values[1..], rest);
      OneMoreValue(Trim(values[0]), more, TrimAll(values[1..]), rest);
      ValuesText([Str(Trim(values[0]))], [Comma], ValueTokens(values[1..]), [Close], rest);
    }
  }

  lemma ValuesText<T>(a: seq<T>, b: seq<T>, c: seq<T>, d: seq<T>, e: seq<T>)
    ensures a + b + c + d + e == a + b + (c + d + e)
  {
  }

  lemma OneMoreValue(v: string, ts: seq<Token>, vs: seq<string>, rest: seq<Token>)
    requires ParseMoreValues(ts) == Some((vs, rest))
    ensures ParseMoreValues([Str(v)] + [Comma] + ts) == Some(([v] + vs, rest))
  {
    assert ([Str(v)] + [Comma] + ts)[2..] == ts;
  }

  lemma ParseLeaf(f: Filter, rest: seq<Token>)
    requires f.Compare? || f.In?
    ensures ParseFactor(Tokens(f) + rest) == Good(Trimmed(f), rest)
  {
    var ts := Tokens(f) + rest;
    if f.Compare? {
      OpIsName(f.op);
      assert ts[3..] == rest;
    } else {
      assert ts[3..] == ValueTokens(f.values) + [Close] + rest;
      if f.values == [] {
        assert ts[3..][1..] == rest;
      } else {
        ParseValuesOf(f.values, rest);
      }
    }
  }

  /** The text of a conjunction or disjunction shows its operator, so it is parenthesized. */
  lemma CompoundIsParenthesized(f: Filter)
    requires f.And? || f.Or?
    ensures Contains(Print(f), "AND") || Contains(Print(f), "OR")
  {
    PrintBinary(f);
    ShowsOperator(Parenthesized(Print(f.left)), Operator(f), Parenthesized(Print(f.right)));
  }

  lemma ShowsOperator(a: string, op: string, b: string)
    ensures Contains(a + (" " + op + " ") + b, op)
  {
    var s := a + (" " + op + " ") + b;
    assert s[|a| + 1..] == op + (" " + b);
    assert StartsAt(s, |a| + 1, op);
  }

  lemma ParseGroup(ts: seq<Token>, f: Filter, rest: seq<Token>)
    requires ParseOr(ts) == Good(f, [Close] + rest)
    ensures ParseFactor([Open] + ts) == Good(f, rest)
  {
    assert ([Open] + ts)[1..] == ts;
    assert ([Close] + rest)[1..] == rest;
  }

  lemma {:induction false} ParseOperand(f: Filter, rest: seq<Token>)
    ensures ParseFactor(Operand(f) + rest) == Good(Trimmed(f), rest)
    decreases f, 1
  {
    if Contains(Print(f), "AND") || Contains(Print(f), "OR") {
      ParseTokens(f, [Close] + rest);
      ParseGroup(Tokens(f) + ([Close] + rest), Trimmed(f), rest);
      Regroup([Open], Tokens(f), [Close], rest);
    } else {
      if f.And? || f.Or? {
        CompoundIsParenthesized(f);
      }
      ParseLeaf(f, rest);
    }
  }

  /** The tokens of a filter are read back as the filter. */
  lemma {:induction false} ParseTokens(f: Filter, rest: seq<Token>)
    requires rest == [] || rest[0] == Close
    ensures ParseOr(Tokens(f) + rest) == Good(Trimmed(f), rest)
    decreases f, 0
  {
    var ts := Tokens(f) + rest;
    if f.Compare? || f.In? {
      ParseLeaf(f, rest);
      ParseAlone(ts, Trimmed(f), rest);
    } else {
      var bs := Operand(f.right) + rest;
      ParseOperand(f.left, [Word(Operator(f))] + bs);
      ParseOperand(f.right, rest);
      Regroup(Operand(f.left), [Word(Operator(f))], Operand(f.right), rest);
      ParseBinary(ts, Trimmed(f.left), f.And?, bs, Trimmed(f.right), rest);
    }
  }

  lemma ParseAlone(ts: seq<Token>, f: Filter, rest: seq<Token>)
    requires ParseFactor(ts) == Good(f, rest) && (rest == [] || rest[0] == Close)
    ensures ParseAnd(ts) == Good(f, rest) && ParseOr(ts) == Good(f, rest)
  {
  }

  lemma ParseBinary(ts: seq<Token>, a: Filter, and: bool, bs: seq<Token>, b: Filter, rest: seq<Token>)
    requires ParseFactor(ts) == Good(a, [if and then Word("AND") else Word("OR")] + bs)
    requires ParseFactor(bs) == Good(b, rest) && (rest == [] || rest[0] == Close)
    ensures ParseOr(ts) == Good(if and then And(a, b) else Or(a, b), rest)
  {
    var more := [if and then Word("AND") else Word("OR")] + bs;
    assert more[1..] == bs;
    if and {
      assert MoreAnd(a, more) == MoreAnd(And(a, b), rest);
    } else {
      ParseAlone(bs, b, rest);
      assert ParseAnd(ts) == Good(a, more);
      assert MoreOr(a, more) == MoreOr(Or(a, b), rest);
    }
  }

  // What becomes of the values.

  predicate AllQuotes(s: string) {
    forall i :: 0 <= i < |s| ==> s[i] == '\''
  }

  /** Trimming takes quotes off the ends, all of them, and nothing else. */
  lemma {:induction false} TrimTakesOuterQuotes(v: string) returns (a: string, b: string)
    ensures v == a + Trim(v) + b && AllQuotes(a) && AllQuotes(b)
    ensures Trim(v) != "" ==> Trim(v)[0] != '\'' && Trim(v)[|Trim(v)| - 1] != '\''
  {
    a := LeftQuotes(v);
    b := RightQuotes(TrimLeft(v));
    assert a + TrimLeft(v) == a + (Trim(v) + b) == a + Trim(v) + b;
  }

  lemma {:induction false} LeftQuotes(v: string) returns (a: string)
    ensures v == a + TrimLeft(v) && AllQuotes(a)
    ensures TrimLeft(v) != "" ==> TrimLeft(v)[0] != '\''
  {
    a := "";
    if v != "" && v[0] == '\'' {
      var rest := LeftQuotes(v[1..]);
      a := [v[0]] + rest;
    }
  }

  lemma {:induction false} RightQuotes(v: string) returns (b: string)
    ensures v == TrimRight(v) + b && AllQuotes(b)
    ensures TrimRight(v) != "" ==> TrimRight(v)[0] == v[0] && TrimRight(v)[|TrimRight(v)| - 1] != '\''
  {
    b := "";
    if v != "" && v[|v| - 1] == '\'' {
      var rest := RightQuotes(v[..|v| - 1]);
      b := rest + [v[|v| - 1]];
      assert v == v[..|v| - 1] + [v[|v| - 1]];
    }
  }

  /** So a value without quotes stays as it is. */
  lemma TrimOfFree(v: string)
    requires QuoteFree(v)
    ensures Trim(v) == v
  {
    assert TrimLeft(v) == v;
  }

  lemma {:induction false} TrimAllOfFree(values: seq<string>)
    requires forall i :: 0 <= i < |values| ==> QuoteFree(values[i])
    ensures TrimAll(values) == values
  {
    if values != [] {
      TrimOfFree(values[0]);
      TrimAllOfFree(values[1..]);
    }
  }

  lemma {:induction false} TrimmedOfFree(f: Filter)
    requires Free(f)
    ensures Trimmed(f) == f
  {
    match f
    case Compare(_, _, value) => TrimOfFree(value);
    case In(_, values) => TrimAllOfFree(values);
    case And(a, b) => TrimmedOfFree(a); TrimmedOfFree(b);
    case Or(a, b) => TrimmedOfFree(a); TrimmedOfFree(b);
  }

  /** Reading the text of a filter yields the filter, values without their outer quotes, exactly
      when no value has a quote inside: whatever else the values contain, AND, OR and parentheses
      included. */
  lemma ReadOfTrimmed(f: Filter)
    requires Named(f)
    ensures Read(Print(f)) == Some(Trimmed(f)) <==> Free(Trimmed(f))
  {
    if Free(Trimmed(f)) {
      LexPrint(f, "");
      assert Print(f) + "" == Print(f);
      assert Lex("") == Some([]);
      assert Tokens(f) + [] == Tokens(f);
      ParseTokens(f, []);
    }
  }

  /** Reading the text of a filter yields the filter itself exactly when its values have no quotes. */
  lemma ReadOfPrint(f: Filter)
    requires Named(f)
    ensures Read(Print(f)) == Some(f) <==> Free(f)
  {
    if Free(f) {
      TrimmedOfFree(f);
      ReadOfTrimmed(f);
    }
  }

  /** So filters without quotes in their values are told apart by their texts. */
  lemma TextsTellFiltersApart(f: Filter, g: Filter)
    requires Named(f) && Named(g) && Free(f) && Free(g) && f != g
    ensures Print(f) != Print(g)
  {
    ReadOfPrint(f);
    ReadOfPrint(g);
  }

  /** The texts of the comparisons, letter by letter, for values without quotes. */
  lemma TextOfComparison(name: string, value: string, values: seq<string>)
    requires QuoteFree(value) && |values| == 2 && QuoteFree(values[0]) && QuoteFree(values[1])
    ensures Print(Compare(Greater, name, value)) == name + " > '" + value + "'"
    ensures Print(Compare(Less, name, value)) == name + " < '" + value + "'"
    ensures Print(Compare(Equal, name, value)) == name + " = '" + value + "'"
    ensures Print(Compare(StartsWith, name, value)) == name + " STARTS_WITH '" + value + "'"
    ensures Print(In(name, values)) == name + " IN ('" + values[0] + "', '" + values[1] + "')"
  {
    TrimOfFree(value);
    TextOfTwo(name, values);
  }

  lemma TextOfTwo(name: string, values: seq<string>)
    requires |values| == 2 && QuoteFree(values[0]) && QuoteFree(values[1])
    ensures Print(In(name, values)) == name + " IN ('" + values[0] + "', '" + values[1] + "')"
  {
    var a, b := values[0], values[1];
    TrimOfFree(a);
    TrimOfFree(b);
    assert values[1..] == [b];
    assert Joined(values) == ("'" + a + "'") + ", " + ("'" + b + "'");
    assert name + " IN (" + (("'" + a + "'") + ", " + ("'" + b + "'")) + ")" == name + " IN ('" + a + "', '" + b + "')";
  }
}
