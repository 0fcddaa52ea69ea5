/** Delimited text such as snake_case and KEBAB-CASE (kit/utils/transform.go). Strings are
    sequences of bytes, written as characters. */
module Transform {

  predicate IsCap(c: char) { 'A' <= c <= 'Z' }

  predicate IsLow(c: char) { 'a' <= c <= 'z' }

  predicate IsNum(c: char) { '0' <= c <= '9' }

  predicate IsAlnum(c: char) { IsCap(c) || IsLow(c) || IsNum(c) }

  function Lower(c: char): char {
    if IsCap(c) then (c as int + 32) as char else c
  }

  function Upper(c: char): char {
    if IsLow(c) then (c as int - 32) as char else c
  }

  function Cased(c: char, screaming: bool): char {
    if screaming then Upper(c) else Lower(c)
  }

  /** Changing the case changes nothing else: the letter keeps its place in the alphabet. */
  lemma CaseKeepsTheLetter(c: char)
    ensures IsLow(c) ==> IsCap(Upper(c)) && Upper(c) as int - 'A' as int == c as int - 'a' as int
    ensures IsCap(c) ==> IsLow(Lower(c)) && Lower(c) as int - 'a' as int == c as int - 'A' as int
    ensures !IsLow(c) ==> Upper(c) == c
    ensures !IsCap(c) ==> Lower(c) == c
  {
  }

  /** The kind of a character changes between two neighbours. */
  predicate Switches(c: char, next: char) {
    || (IsCap(c) && (IsLow(next) || IsNum(next)))
    || (IsLow(c) && (IsCap(next) || IsNum(next)))
    || (IsNum(c) && (IsCap(next) || IsLow(next)))
  }

  datatype Style = Style(delimiter: char, ignore: char, screaming: bool)

  const NO_IGNORE: char := '\0'

  // What each byte contributes.

  /** The first byte that is no space. */
  function First(s: string): (n: nat)
    ensures n <= |s| && (forall k :: 0 <= k < n ==> s[k] == ' ') && (n < |s| ==> s[n] != ' ')
  {
    if s == "" || s[0] != ' ' then 0 else 1 + First(s[1..])
  }

  /** The last byte that is no space. */
  function Last(s: string): (n: int)
    ensures -1 <= n < |s| && (forall k :: n < k < |s| ==> s[k] == ' ') && (n >= 0 ==> s[n] != ' ')
  {
    if s == "" || s[|s| - 1] != ' ' then |s| - 1 else Last(s[..|s| - 1])
  }

  /** What a space between words is turned into. */
  function Space(st: Style): char {
    if st.ignore == ' ' then ' ' else st.delimiter
  }

  /** What the byte at i is turned into: nothing for a leading or trailing space, a delimiter for
      any other space, and else the byte in its case, with a delimiter where a word ends after it
      or, at the end of an acronym, before it. */
  function Piece(s: string, i: nat, st: Style): string
    requires i < |s|
  {
    if s[i] == ' ' then
      if First(s) < i < Last(s) then [Space(st)] else ""
    else Word(s, i, st)
  }

  function Word(s: string, i: nat, st: Style): string
    requires i < |s|
  {
    var v := Cased(s[i], st.screaming);
    if i + 1 < |s| && Switches(s[i], s[i + 1]) && !(st.ignore > NO_IGNORE && i > 0 && s[i - 1] == st.ignore) then
      if IsCap(s[i]) && IsLow(s[i + 1]) then if i > 0 && IsCap(s[i - 1]) then [st.delimiter, v] else [v]
      else [v, st.delimiter]
    else if (v == ' ' || v == '_' || v == '-') && v != st.ignore then [st.delimiter]
    else [v]
  }

  /** What the first m bytes are turned into. */
  function Pieces(s: string, m: nat, st: Style): string
    requires m <= |s|
  {
    if m == 0 then "" else Pieces(s, m - 1, st) + Piece(s, m - 1, st)
  }

  function Delimited(s: string, st: Style): string {
    Pieces(s, |s|, st)
  }

  /** Where the loop stands before byte `i`: `spaces` spaces have been counted and not written, and
      `n` is what the bytes before them are turned into, which is nothing at the start. */
  predicate Written(n: string, s: string, i: nat, spaces: nat, start: bool, st: Style)
    requires i <= |s|
  {
    && spaces <= i
    && (forall k :: i - spaces <= k < i ==> s[k] == ' ')
    && (if start then spaces == i && n == "" else spaces < i && s[i - spaces - 1] != ' ' && n == Pieces(s, i - spaces, st))
  }

  /** The conversion as the loop it is: spaces are counted and written before the next word. */
  method ToScreamingDelimited(s: string, delimiter: char, ignore: char, screaming: bool) returns (n: string)
    ensures n == Delimited(s, Style(delimiter, ignore, screaming))
  {
    ghost var st := Style(delimiter, ignore, screaming);
    n := "";
    var start := true;
    var spaces := 0;
    var i := 0;
    while i < |s|
      invariant 0 <= i <= |s| && 0 <= spaces && Written(n, s, i, spaces, start, st)
    {
      var v := s[i];
      if v == ' ' {
        spaces := spaces + 1;
      } else {
        n := AddByte(n, s, i, spaces, start, delimiter, ignore, screaming, st);
        start := false;
        spaces := 0;
      }
      i := i + 1;
    }
    AllWritten(n, s, spaces, start, st);
  }

  lemma AllWritten(n: string, s: string, spaces: nat, start: bool, st: Style)
    requires Written(n, s, |s|, spaces, start, st)
    ensures n == Delimited(s, st)
  {
    if start {
      LeadingSpaces(s, |s|, st);
    } else {
      TrailingSpaces(s, |s| - spaces, st);
    }
  }

  /** The loop body for a byte that is no space. */
  method AddByte(before: string, s: string, i: nat, spaces: nat, start: bool, delimiter: char, ignore: char, screaming: bool,
                 ghost st: Style)
    returns (n: string)
    requires i < |s| && s[i] != ' ' && st == Style(delimiter, ignore, screaming) && Written(before, s, i, spaces, start, st)
    ensures Written(n, s, i + 1, 0, false, st)
  {
    if start {
      LeadingSpaces(s, i, st);
      n := before;
    } else {
      n := FlushSpaces(before, s, i, spaces, delimiter, ignore, st);
    }
    n := AddWord(n, s, i, delimiter, ignore, screaming, st);
  }

  lemma NextWord(s: string, i: nat, st: Style)
    requires i < |s| && s[i] != ' '
    ensures Pieces(s, i + 1, st) == Pieces(s, i, st) + Word(s, i, st)
  {
  }

  method AddWord(before: string, s: string, i: nat, delimiter: char, ignore: char, screaming: bool, ghost st: Style)
    returns (n: string)
    requires i < |s| && s[i] != ' ' && st == Style(delimiter, ignore, screaming) && before == Pieces(s, i, st)
    ensures n == Pieces(s, i + 1, st)
  {
    var word := WordAt(s, i, delimiter, ignore, screaming);
    NextWord(s, i, st);
    n := before + word;
  }

  /** The part of the loop body that writes the spaces counted before a word. */
  method FlushSpaces(before: string, s: string, i: nat, counted: nat, delimiter: char, ignore: char, ghost st: Style)
    returns (n: string)
    requires counted < i < |s| && s[i] != ' ' && s[i - counted - 1] != ' ' && st.delimiter == delimiter && st.ignore == ignore
    requires forall k :: i - counted <= k < i ==> s[k] == ' '
    requires before == Pieces(s, i - counted, st)
    ensures n == Pieces(s, i, st)
  {
    n := before;
    var spaces := counted;
    ghost var k := i - counted;
    while spaces > 0
      invariant 0 <= spaces <= counted && k == i - spaces && n == Pieces(s, k, st)
    {
      n := AddSpace(n, s, i - counted - 1, k, i, delimiter, ignore, st);
      spaces, k := spaces - 1, k + 1;
    }
  }

  method AddSpace(prefix: string, s: string, ghost before: nat, ghost k: nat, ghost after: nat, delimiter: char, ignore: char, ghost st: Style)
    returns (n: string)
    requires before < k < after < |s| && s[before] != ' ' && s[k] == ' ' && s[after] != ' '
    requires st.delimiter == delimiter && st.ignore == ignore && prefix == Pieces(s, k, st)
    ensures n == Pieces(s, k + 1, st)
  {
    InnerSpace(s, before, k, after, st);
    if ignore == ' ' {
      n := prefix + [' '];
    } else {
      n := prefix + [delimiter];
    }
  }

  lemma InnerSpace(s: string, before: nat, k: nat, after: nat, st: Style)
    requires before < k < after < |s| && s[before] != ' ' && s[k] == ' ' && s[after] != ' '
    ensures Pieces(s, k + 1, st) == Pieces(s, k, st) + [Space(st)]
  {
    assert First(s) <= before && after <= Last(s);
  }

  /** The part of the loop body that writes a byte that is no space. */
  method WordAt(s: string, i: nat, delimiter: char, ignore: char, screaming: bool) returns (n: string)
    requires i < |s|
    ensures n == Word(s, i, Style(delimiter, ignore, screaming))
  {
    n := "";
    var v := s[i];
    var vIsCap, vIsLow := IsCap(v), IsLow(v);
    if vIsLow && screaming {
      v := Upper(v);
    } else if vIsCap && !screaming {
      v := Lower(v);
    }
    if i + 1 < |s| {
      var next := s[i + 1];
      var vIsNum := IsNum(v);
      if (vIsCap && (IsLow(next) || IsNum(next))) || (vIsLow && (IsCap(next) || IsNum(next))) ||
         (vIsNum && (IsCap(next) || IsLow(next))) {
        var prevIgnore := ignore > NO_IGNORE && i > 0 && s[i - 1] == ignore;
        if !prevIgnore {
          if vIsCap && IsLow(next) {
            var prevIsCap := i > 0 && IsCap(s[i - 1]);
            if prevIsCap {
              n := n + [delimiter];
            }
          }
          n := n + [v];
          if vIsLow || vIsNum || IsNum(next) {
            n := n + [delimiter];
          }
          return;
        }
      }
    }
    if (v == ' ' || v == '_' || v == '-') && v != ignore {
      n := n + [delimiter];
    } else {
      n := n + [v];
    }
  }

  lemma {:induction false} LeadingSpaces(s: string, m: nat, st: Style)
    requires m <= |s| && forall k :: 0 <= k < m ==> s[k] == ' '
    ensures Pieces(s, m, st) == ""
  {
    if m > 0 {
      LeadingSpaces(s, m - 1, st);
    }
  }

  lemma {:induction false} TrailingSpaces(s: string, m: nat, st: Style)
    requires m <= |s| && forall k :: m <= k < |s| ==> s[k] == ' '
    ensures Pieces(s, |s|, st) == Pieces(s, m, st)
    decreases |s| - m
  {
    if m < |s| {
      TrailingSpaces(s, m + 1, st);
    }
  }

  // Laws, for conversions that ignore nothing.

  /** The letters and digits of a text, in lower case. */
  function Letters(s: string): string {
    if s == "" then ""
    else Letters(s[..|s| - 1]) + if IsAlnum(s[|s| - 1]) then [Lower(s[|s| - 1])] else ""
  }

  lemma {:induction false} LettersAppend(a: string, b: string)
    ensures Letters(a + b) == Letters(a) + Letters(b)
    decreases |b|
  {
    if b == "" {
      assert a + b == a;
    } else {
      assert (a + b)[..|a + b| - 1] == a + b[..|b| - 1];
      LettersAppend(a, b[..|b| - 1]);
    }
  }

  lemma LettersOfOne(c: char)
    ensures Letters([c]) == if IsAlnum(c) then [Lower(c)] else ""
  {
    assert [c][..0] == "";
  }

  lemma LettersOfTwo(a: char, b: char)
    ensures Letters([a, b]) == Letters([a]) + Letters([b])
  {
    assert [a, b] == [a] + [b];
    LettersAppend([a], [b]);
  }

  lemma PieceShapes(s: string, i: nat, st: Style)
    requires i < |s| && st.ignore == NO_IGNORE
    ensures var p, v, d := Piece(s, i, st), Cased(s[i], st.screaming), st.delimiter;
            if IsAlnum(s[i]) then p == [v] || p == [v, d] || p == [d, v]
            else if s[i] == ' ' then p == "" || p == [d]
            else p == [d] || p == [v]
  {
  }

  lemma LettersOfPiece(s: string, i: nat, st: Style)
    requires i < |s| && !IsAlnum(st.delimiter) && st.ignore == NO_IGNORE
    ensures Letters(Piece(s, i, st)) == Letters([s[i]]) && |Piece(s, i, st)| <= 2
  {
    var v := Cased(s[i], st.screaming);
    PieceShapes(s, i, st);
    LettersOfOne(s[i]);
    LettersOfOne(st.delimiter);
    LettersOfOne(v);
    LettersOfTwo(v, st.delimiter);
    LettersOfTwo(st.delimiter, v);
  }

  /** No letter or digit is lost, added or moved, and the text at most doubles. */
  lemma {:induction false} LettersAreKept(s: string, m: nat, st: Style)
    requires m <= |s| && !IsAlnum(st.delimiter) && st.ignore == NO_IGNORE
    ensures Letters(Pieces(s, m, st)) == Letters(s[..m]) && |Pieces(s, m, st)| <= 2 * m
    decreases m
  {
    if m > 0 {
      LettersAreKept(s, m - 1, st);
      LettersStep(Pieces(s, m - 1, st), s, m - 1, st);
    }
  }

  lemma LettersStep(a: string, s: string, i: nat, st: Style)
    requires i < |s| && !IsAlnum(st.delimiter) && st.ignore == NO_IGNORE
    requires Letters(a) == Letters(s[..i]) && |a| <= 2 * i
    ensures Letters(a + Piece(s, i, st)) == Letters(s[..i + 1]) && |a + Piece(s, i, st)| <= 2 * (i + 1)
  {
    LettersOfPiece(s, i, st);
    JoinLetters(a, Piece(s, i, st), s[..i], s[i]);
    assert s[..i + 1] == s[..i] + [s[i]];
  }

  lemma JoinLetters(a: string, p: string, done: string, c: char)
    requires Letters(a) == Letters(done) && |a| <= 2 * |done|
    requires Letters(p) == Letters([c]) && |p| <= 2
    ensures Letters(a + p) == Letters(done + [c]) && |a + p| <= 2 * (|done| + 1)
  {
    LettersAppend(a, p);
    LettersAppend(done, [c]);
  }

  lemma SameLetters(s: string, st: Style)
    requires !IsAlnum(st.delimiter) && st.ignore == NO_IGNORE
    ensures Letters(Delimited(s, st)) == Letters(s) && |Delimited(s, st)| <= 2 * |s|
  {
    LettersAreKept(s, |s|, st);
    assert s[..|s|] == s;
  }

  /** A letter next to a digit. */
  predicate Mixed(a: char, b: char) {
    ((IsCap(a) || IsLow(a)) && IsNum(b)) || (IsNum(a) && (IsCap(b) || IsLow(b)))
  }

  // Where the delimiters are.

  /** The byte follows the ignored one. */
  predicate AfterIgnored(s: string, i: nat, st: Style)
    requires i <= |s|
  {
    st.ignore > NO_IGNORE && i > 0 && s[i - 1] == st.ignore
  }

  /** A word ends between bytes i and i + 1: a capital follows a low letter, a letter meets a digit,
      or the last capital of a run of them begins a word. */
  predicate WordEnds(s: string, i: nat, st: Style)
    requires i < |s|
  {
    && i + 1 < |s|
    && (|| (((IsLow(s[i]) && IsCap(s[i + 1])) || Mixed(s[i], s[i + 1])) && !AfterIgnored(s, i, st))
        || EndsAcronym(s, i, st))
  }

  predicate EndsAcronym(s: string, i: nat, st: Style)
    requires i < |s|
  {
    i + 2 < |s| && IsCap(s[i]) && IsCap(s[i + 1]) && IsLow(s[i + 2]) && !AfterIgnored(s, i + 1, st)
  }

  /** What becomes of one byte: spaces between words, underscores and hyphens turn into delimiters,
      unless they are ignored; letters change their case; spaces around the text go. */
  function Image(s: string, i: nat, st: Style): string
    requires i < |s|
  {
    if s[i] == ' ' then
      if (exists k :: 0 <= k < i && s[k] != ' ') && (exists k :: i < k < |s| && s[k] != ' ') then
        [if st.ignore == ' ' then ' ' else st.delimiter]
      else ""
    else if (s[i] == '_' || s[i] == '-') && s[i] != st.ignore then [st.delimiter]
    else [if st.screaming then Upper(s[i]) else Lower(s[i])]
  }

  /** The images of the first m bytes, with a delimiter where a word ends. */
  function Spread(s: string, m: nat, st: Style): string
    requires m <= |s|
  {
    if m == 0 then ""
    else Spread(s, m - 1, st) + Image(s, m - 1, st) + if WordEnds(s, m - 1, st) then [st.delimiter] else ""
  }

  lemma ImageOfSpace(s: string, i: nat, st: Style)
    requires i < |s| && s[i] == ' '
    ensures Image(s, i, st) == Piece(s, i, st)
  {
    if First(s) < i {
      assert s[First(s)] != ' ';
    }
    if i < Last(s) {
      assert s[Last(s)] != ' ';
    }
  }

  /** The loop writes the delimiter before the last capital of a run with that capital. */
  lemma PieceIsImage(s: string, i: nat, st: Style)
    requires i < |s| && s[i] != ' '
    ensures (if i > 0 && EndsAcronym(s, i - 1, st) then [st.delimiter] else "") + Image(s, i, st)
            + (if WordEnds(s, i, st) && !EndsAcronym(s, i, st) then [st.delimiter] else "")
         == Piece(s, i, st)
  {
  }

  lemma {:induction false} SpreadIsPieces(s: string, m: nat, st: Style)
    requires m <= |s|
    ensures Spread(s, m, st) == Pieces(s, m, st) + if m > 0 && EndsAcronym(s, m - 1, st) then [st.delimiter] else ""
    decreases m
  {
    if m > 0 {
      SpreadIsPieces(s, m - 1, st);
      if s[m - 1] == ' ' {
        ImageOfSpace(s, m - 1, st);
      } else {
        PieceIsImage(s, m - 1, st);
      }
    }
  }

  /** The conversion, for any style: every byte has its image, with exactly one delimiter in between
      wherever a word ends, and nothing else. */
  lemma DelimitersStandWhereWordsEnd(s: string, st: Style)
    ensures Delimited(s, st) == Spread(s, |s|, st)
  {
    SpreadIsPieces(s, |s|, st);
  }

  lemma {:induction false} SpreadGrows(s: string, m: nat, n: nat, st: Style) returns (rest: string)
    requires m <= n <= |s|
    ensures Spread(s, n, st) == Spread(s, m, st) + rest
    decreases n
  {
    rest := "";
    if m < n {
      var before := SpreadGrows(s, m, n - 1, st);
      rest := before + Image(s, n - 1, st) + if WordEnds(s, n - 1, st) then [st.delimiter] else "";
    }
  }

  lemma LettersOfSpread(s: string, m: nat, st: Style)
    requires m <= |s| && !IsAlnum(st.delimiter) && st.ignore == NO_IGNORE
    ensures Letters(Spread(s, m, st)) == Letters(s[..m])
  {
    SpreadIsPieces(s, m, st);
    LettersAreKept(s, m, st);
    DelimiterIsNoLetter(Pieces(s, m, st), st.delimiter, m > 0 && EndsAcronym(s, m - 1, st));
  }

  lemma DelimiterIsNoLetter(a: string, d: char, there: bool)
    requires !IsAlnum(d)
    ensures Letters(a + if there then [d] else "") == Letters(a) == Letters((if there then [d] else "") + a)
  {
    LettersOfOne(d);
    LettersAppend(a, if there then [d] else "");
    LettersAppend(if there then [d] else "", a);
    assert Letters("") == "" && a + "" == a == "" + a;
  }

  /** Two letters or digits next to each other: their images follow each other, with exactly one
      delimiter in between if the first is low and the second a capital, or one is a letter and the
      other a digit, or both are capitals and a low letter follows; otherwise with nothing. */
  lemma BetweenNeighbours(s: string, i: nat, st: Style) returns (a: string, b: string)
    requires i + 1 < |s| && IsAlnum(s[i]) && IsAlnum(s[i + 1]) && !IsAlnum(st.delimiter) && st.ignore == NO_IGNORE
    ensures var ends := (IsLow(s[i]) && IsCap(s[i + 1])) || Mixed(s[i], s[i + 1]) ||
                        (IsCap(s[i]) && IsCap(s[i + 1]) && i + 2 < |s| && IsLow(s[i + 2]));
            Delimited(s, st) == a + [Cased(s[i], st.screaming)] + (if ends then [st.delimiter] else "")
                                + [Cased(s[i + 1], st.screaming)] + b
    ensures Letters(a) == Letters(s[..i]) && Letters(b) == Letters(s[i + 2..])
  {
    DelimitersStandWhereWordsEnd(s, st);
    a := Spread(s, i, st);
    LettersOfSpread(s, i, st);
    var rest := SpreadGrows(s, i + 2, |s|, st);
    LettersAfter(s, i + 2, rest, st);
    DelimiterIsNoLetter(rest, st.delimiter, WordEnds(s, i + 1, st));
    b := (if WordEnds(s, i + 1, st) then [st.delimiter] else "") + rest;
    NeighboursHaveImages(s, i, st);
    SpreadTwo(s, i, st);
    Together(a, [Cased(s[i], st.screaming)], if WordEnds(s, i, st) then [st.delimiter] else "",
             [Cased(s[i + 1], st.screaming)], if WordEnds(s, i + 1, st) then [st.delimiter] else "", rest);
  }

  lemma NeighboursHaveImages(s: string, i: nat, st: Style)
    requires i + 1 < |s| && IsAlnum(s[i]) && IsAlnum(s[i + 1]) && st.ignore == NO_IGNORE
    ensures Image(s, i, st) == [Cased(s[i], st.screaming)] && Image(s, i + 1, st) == [Cased(s[i + 1], st.screaming)]
    ensures WordEnds(s, i, st) <==>
              || (IsLow(s[i]) && IsCap(s[i + 1])) || Mixed(s[i], s[i + 1])
              || (IsCap(s[i]) && IsCap(s[i + 1]) && i + 2 < |s| && IsLow(s[i + 2]))
  {
  }

  lemma SpreadTwo(s: string, i: nat, st: Style)
    requires i + 1 < |s|
    ensures Spread(s, i + 2, st)
         == Spread(s, i, st) + Image(s, i, st) + (if WordEnds(s, i, st) then [st.delimiter] else "") + Image(s, i + 1, st)
            + if WordEnds(s, i + 1, st) then [st.delimiter] else ""
  {
    assert Spread(s, i + 1, st) == Spread(s, i, st) + Image(s, i, st) + if WordEnds(s, i, st) then [st.delimiter] else "";
  }

  lemma Together(a: string, b: string, c: string, d: string, e: string, f: string)
    ensures a + b + c + d + e + f == a + b + c + d + (e + f)
  {
  }

  lemma LettersAfter(s: string, m: nat, rest: string, st: Style)
    requires m <= |s| && !IsAlnum(st.delimiter) && st.ignore == NO_IGNORE && Spread(s, |s|, st) == Spread(s, m, st) + rest
    ensures Letters(rest) == Letters(s[m..])
  {
    LettersOfSpread(s, |s|, st);
    LettersOfSpread(s, m, st);
    LettersAppend(Spread(s, m, st), rest);
    LettersAppend(s[..m], s[m..]);
    assert s[..m] + s[m..] == s == s[..|s|];
    assert Letters(rest) == (Letters(s[..m]) + Letters(rest))[|Letters(s[..m])|..];
    assert Letters(s[m..]) == (Letters(s[..m]) + Letters(s[m..]))[|Letters(s[..m])|..];
  }

  // The form of the result.

  /** Text as the conversion leaves it: in one case, without spaces, with no other separators than
      the delimiter, and with no letter next to a digit. */
  predicate Settled(s: string, st: Style) {
    && (forall i :: 0 <= i < |s| ==> SettledChar(s[i], st))
    && (forall i :: 0 <= i < |s| - 1 ==> !Mixed(s[i], s[i + 1]))
  }

  predicate SettledChar(c: char, st: Style) {
    && (if st.screaming then !IsLow(c) else !IsCap(c))
    && c != ' '
    && (c == '_' || c == '-' ==> c == st.delimiter)
  }

  /** A delimiter that stays put: no letter, digit or space. */
  predicate Separator(d: char) {
    !IsAlnum(d) && d != ' '
  }

  /** How the text so far ends: with a delimiter, or with the last byte in its case, and then the
      next byte does not make it a mixture; or only spaces follow. */
  predicate EndsWell(s: string, m: nat, out: string, st: Style)
    requires m <= |s|
  {
    || out == ""
    || out[|out| - 1] == st.delimiter
    || (m > 0 && s[m - 1] != ' ' && out[|out| - 1] == Cased(s[m - 1], st.screaming) &&
        (m < |s| ==> !Mixed(s[m - 1], s[m])))
    || Last(s) < m
  }

  lemma SettledAppend(a: string, b: string, st: Style)
    requires Settled(a, st) && Settled(b, st) && (a != "" && b != "" ==> !Mixed(a[|a| - 1], b[0]))
    ensures Settled(a + b, st)
  {
    var s := a + b;
    forall i | 0 <= i < |s| - 1 ensures !Mixed(s[i], s[i + 1]) {
      if i == |a| - 1 {
        assert s[i] == a[|a| - 1] && s[i + 1] == b[0];
      }
    }
  }

  lemma PieceIsSettled(s: string, i: nat, st: Style)
    requires i < |s| && Separator(st.delimiter) && st.ignore == NO_IGNORE
    ensures var p := Piece(s, i, st);
            && Settled(p, st)
            && (p != "" ==> p[0] == st.delimiter || p[0] == Cased(s[i], st.screaming))
            && (s[i] != ' ' ==> p != "" && EndsWell(s, i + 1, p, st))
            && (s[i] == ' ' && p != "" ==> p == [st.delimiter])
  {
  }

  lemma {:induction false} PiecesAreSettled(s: string, m: nat, st: Style)
    requires m <= |s| && Separator(st.delimiter) && st.ignore == NO_IGNORE
    ensures Settled(Pieces(s, m, st), st) && EndsWell(s, m, Pieces(s, m, st), st)
    decreases m
  {
    if m > 0 {
      PiecesAreSettled(s, m - 1, st);
      if m - 1 <= First(s) {
        LeadingSpaces(s, m - 1, st);
      }
      StepIsSettled(Pieces(s, m - 1, st), s, m - 1, st);
    }
  }

  lemma StepIsSettled(a: string, s: string, i: nat, st: Style)
    requires i < |s| && Separator(st.delimiter) && st.ignore == NO_IGNORE
    requires Settled(a, st) && EndsWell(s, i, a, st) && (i <= First(s) ==> a == "")
    ensures Settled(a + Piece(s, i, st), st) && EndsWell(s, i + 1, a + Piece(s, i, st), st)
  {
    PieceIsSettled(s, i, st);
    JoinIsSettled(a, Piece(s, i, st), s, i, st);
  }

  lemma JoinIsSettled(a: string, b: string, s: string, i: nat, st: Style)
    requires i < |s| && Settled(a, st) && Settled(b, st) && EndsWell(s, i, a, st) && Separator(st.delimiter)
    requires b != "" ==> b[0] == st.delimiter || b[0] == Cased(s[i], st.screaming)
    requires s[i] != ' ' ==> b != "" && EndsWell(s, i + 1, b, st)
    requires s[i] == ' ' ==> b == [st.delimiter] || (b == "" && (a == "" || Last(s) <= i))
    ensures Settled(a + b, st) && EndsWell(s, i + 1, a + b, st)
  {
    if a != "" && b != "" {
      NotMixed(a, b, s, i, st);
    }
    SettledAppend(a, b, st);
    if b == "" {
      assert a + b == a;
    } else {
      assert (a + b)[|a + b| - 1] == b[|b| - 1];
    }
  }

  lemma NotMixed(a: string, b: string, s: string, i: nat, st: Style)
    requires i < |s| && a != "" && b != "" && EndsWell(s, i, a, st) && Separator(st.delimiter)
    requires b[0] == st.delimiter || b[0] == Cased(s[i], st.screaming)
    requires s[i] == ' ' ==> b == [st.delimiter]
    ensures !Mixed(a[|a| - 1], b[0])
  {
    if s[i] != ' ' {
      assert i <= Last(s);
    }
  }

  lemma {:induction false} SettledStays(s: string, m: nat, st: Style)
    requires m <= |s| && Settled(s, st) && st.ignore == NO_IGNORE
    ensures Pieces(s, m, st) == s[..m]
    decreases m
  {
    if m > 0 {
      SettledStays(s, m - 1, st);
      assert Piece(s, m - 1, st) == [s[m - 1]];
      assert s[..m] == s[..m - 1] + [s[m - 1]];
    }
  }

  /** The texts that the conversion leaves alone are exactly those of the form it produces. */
  lemma FixedPointsAreTheSettledTexts(s: string, st: Style)
    requires Separator(st.delimiter) && st.ignore == NO_IGNORE
    ensures Settled(Delimited(s, st), st)
    ensures Delimited(s, st) == s <==> Settled(s, st)
  {
    PiecesAreSettled(s, |s|, st);
    if Settled(s, st) {
      SettledStays(s, |s|, st);
      assert s[..|s|] == s;
    }
  }

  /** Converting twice is converting once, for all texts, exactly when the delimiter is a separator. */
  lemma IdempotentIffSeparator(st: Style)
    requires st.ignore == NO_IGNORE
    ensures Separator(st.delimiter) <==> forall s :: Delimited(Delimited(s, st), st) == Delimited(s, st)
  {
    if Separator(st.delimiter) {
      forall s ensures Delimited(Delimited(s, st), st) == Delimited(s, st) {
        FixedPointsAreTheSettledTexts(s, st);
        FixedPointsAreTheSettledTexts(Delimited(s, st), st);
      }
    } else {
      AlnumOrSpaceIsNotStable(st);
    }
  }

  lemma AlnumOrSpaceIsNotStable(st: Style)
    requires st.ignore == NO_IGNORE && !Separator(st.delimiter)
    ensures exists s :: Delimited(Delimited(s, st), st) != Delimited(s, st)
  {
    if st.delimiter == ' ' {
      var s := "1_";
      assert Pieces(s, 1, st) == "1";
      assert Delimited(s, st) == "1 ";
      var t := "1 ";
      assert Pieces(t, 1, st) == "1";
      assert Delimited(t, st) == "1";
    } else {
      var s := "a1";
      var a, d := Cased('a', st.screaming), st.delimiter;
      assert Pieces(s, 1, st) == [a, d];
      assert Delimited(s, st) == [a, d, '1'];
      var t := [a, d, '1'];
      PiecesGrow(t, 1, st);
      PiecesGrow(t, 2, st);
      PiecesGrow(t, 3, st);
      assert |Delimited(t, st)| > 3;
    }
  }

  lemma PiecesGrow(s: string, m: nat, st: Style)
    requires 0 < m <= |s|
    ensures |Pieces(s, m, st)| == |Pieces(s, m - 1, st)| + |Piece(s, m - 1, st)|
  {
  }
}
