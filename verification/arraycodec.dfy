/** The text[] codec of the API-key scopes' version lists, and PostgreSQL's own text form of an array
    (section 8.15.6 of the PostgreSQL manual, "Array Input and Output Syntax"). */
module ArrayCodec {
  import opened Wrappers

  /** What the driver hands to Scan. */
  datatype Source = Null | Text(text: string) | Raw(bytes: string) | Unsupported

  datatype ScanError = UnsupportedType

  /** A nil slice is None. */
  type StringArray = Option<seq<string>>

  // ----- Scan -----

  datatype Scanner = Scanner(out: seq<string>, cur: string, quoted: bool, escaped: bool)

  function ScanChar(s: Scanner, c: char): Scanner {
    if s.escaped then s.(cur := s.cur + [c], escaped := false)
    else if c == '\\' && s.quoted then s.(escaped := true)
    else if c == '"' then s.(quoted := !s.quoted)
    else if c == ',' && !s.quoted then s.(out := s.out + [s.cur], cur := "")
    else s.(cur := s.cur + [c])
  }

  function ScanAll(s: Scanner, text: string): Scanner {
    if text == "" then s else ScanChar(ScanAll(s, text[..|text| - 1]), text[|text| - 1])
  }

  const START := Scanner([], "", false, false)

  function TrimBraces(s: string): string {
    var t := if s != "" && s[|s| - 1] == '}' then s[..|s| - 1] else s;
    if t != "" && t[0] == '{' then t[1..] else t
  }

  /** The array a literal stands for. */
  function Parse(literal: string): seq<string> {
    var s := TrimBraces(literal);
    if s == "" then [] else ScanAll(START, s).out + [ScanAll(START, s).cur]
  }

  method Scan(src: Source) returns (r: Result<StringArray, ScanError>)
    ensures r == match src
                 case Null => Ok(None)
                 case Text(s) => Ok(Some(Parse(s)))
                 case Raw(s) => Ok(Some(Parse(s)))
                 case Unsupported => Err(UnsupportedType)
  {
    if src.Null? { return Ok(None); }
    if src.Unsupported? { return Err(UnsupportedType); }
    var s := TrimBraces(if src.Text? then src.text else src.bytes);
    if s == "" { return Ok(Some([])); }
    var out: seq<string> := [];
    var cur, quoted, escaped := "", false, false;
    for i := 0 to |s|
      invariant ScanAll(START, s[..i]) == Scanner(out, cur, quoted, escaped)
    {
      assert s[..i + 1][..i] == s[..i];
      if escaped {
        cur, escaped := cur + [s[i]], false;
      } else if s[i] == '\\' && quoted {
        escaped := true;
      } else if s[i] == '"' {
        quoted := !quoted;
      } else if s[i] == ',' && !quoted {
        out, cur := out + [cur], "";
      } else {
        cur := cur + [s[i]];
      }
    }
    assert s[..|s|] == s;
    return Ok(Some(out + [cur]));
  }

  // ----- Printing -----

  function Escape(s: string): string {
    if s == "" then ""
    else
      var c := s[|s| - 1];
      Escape(s[..|s| - 1]) + if c == '"' || c == '\\' then ['\\', c] else [c]
  }

  function Quote(s: string): string { ['"'] + Escape(s) + ['"'] }

  /** Elements separated by commas, each in quotes or bare as quote says. */
  function Elements(a: seq<string>, quote: string -> bool): string {
    if a == [] then ""
    else
      var e := a[|a| - 1];
      var text := if quote(e) then Quote(e) else e;
      if |a| == 1 then text else Elements(a[..|a| - 1], quote) + [','] + text
  }

  function Literal(a: seq<string>, quote: string -> bool): string { ['{'] + Elements(a, quote) + ['}'] }

  /** Value's inner loop, on one element. */
  method WriteQuoted(before: string, s: string) returns (b: string)
    ensures b == before + Quote(s)
  {
    b := before + ['"'];
    ghost var open := b;
    for j := 0 to |s|
      invariant b == open + Escape(s[..j])
    {
      assert s[..j + 1][..j] == s[..j];
      if s[j] == '"' || s[j] == '\\' { b := b + ['\\']; }
      b := b + [s[j]];
    }
    assert s[..|s|] == s;
    b := b + ['"'];
  }

  /** Value quotes every element; nil becomes NULL. */
  method Value(a: StringArray) returns (v: Source)
    ensures v == if a == None then Null else Text(Literal(a.value, Always))
  {
    hide Quote;
    if a == None { return Null; }
    var b := ['{'];
    for i := 0 to |a.value|
      invariant b == ['{'] + Elements(a.value[..i], Always)
    {
      assert a.value[..i + 1][..i] == a.value[..i];
      if i > 0 { b := b + [',']; }
      b := WriteQuoted(b, a.value[i]);
    }
    assert a.value[..|a.value|] == a.value;
    return Text(b + ['}']);
  }

  predicate Always(e: string) { true }

  predicate IsSpace(c: char) { c == ' ' || '\t' <= c <= '\r' }

  function Upper(c: char): char { if 'a' <= c <= 'z' then c - 'a' + 'A' else c }

  /** PostgreSQL quotes an element exactly if it is empty, has a brace, comma, quote, backslash or
      white space, or reads NULL. */
  predicate PostgresQuotes(e: string) {
    || e == ""
    || (exists i | 0 <= i < |e| :: e[i] in "{},\"\\" || IsSpace(e[i]))
    || (|e| == 4 && Upper(e[0]) == 'N' && Upper(e[1]) == 'U' && Upper(e[2]) == 'L' && Upper(e[3]) == 'L')
  }

  // ----- Round trips -----

  lemma {:induction false} ScanTwo(s: Scanner, a: string, b: string)
    ensures ScanAll(s, a + b) == ScanAll(ScanAll(s, a), b)
  {
    if b == "" {
      assert a + b == a;
    } else {
      assert (a + b)[..|a + b| - 1] == a + b[..|b| - 1];
      ScanTwo(s, a, b[..|b| - 1]);
    }
  }

  lemma ScanOneMore(s: Scanner, a: string, c: char)
    ensures ScanAll(s, a + [c]) == ScanChar(ScanAll(s, a), c)
  {
    assert (a + [c])[..|a|] == a;
  }

  lemma {:induction false} ScanEscaped(out: seq<string>, e: string)
    ensures ScanAll(Scanner(out, "", true, false), Escape(e)) == Scanner(out, e, true, false)
  {
    if e != "" {
      var s, front, c := Scanner(out, "", true, false), e[..|e| - 1], e[|e| - 1];
      ScanEscaped(out, front);
      assert front + [c] == e;
      if c == '"' || c == '\\' {
        ScanOneMore(s, Escape(front), '\\');
        ScanOneMore(s, Escape(front) + ['\\'], c);
        assert Escape(e) == Escape(front) + ['\\'] + [c];
      } else {
        ScanOneMore(s, Escape(front), c);
      }
    }
  }

  lemma ScanQuoted(out: seq<string>, e: string)
    ensures ScanAll(Scanner(out, "", false, false), Quote(e)) == Scanner(out, e, false, false)
  {
    var s := Scanner(out, "", false, false);
    ScanOneMore(s, "", '"');
    assert "" + ['"'] == ['"'];
    ScanTwo(s, ['"'], Escape(e));
    ScanEscaped(out, e);
    ScanOneMore(s, ['"'] + Escape(e), '"');
  }

  lemma {:induction false} ScanBare(out: seq<string>, e: string)
    requires '"' !in e && ',' !in e
    ensures ScanAll(Scanner(out, "", false, false), e) == Scanner(out, e, false, false)
  {
    if e != "" {
      ScanBare(out, e[..|e| - 1]);
      assert e[|e| - 1] in e;
      assert e[..|e| - 1] + [e[|e| - 1]] == e;
    }
  }

  /** A way of quoting that Scan can read: it leaves bare only nonempty elements without a quote or a
      comma. */
  ghost predicate Readable(quote: string -> bool) {
    forall e :: !quote(e) ==> e != "" && '"' !in e && ',' !in e
  }

  lemma ScanElement(out: seq<string>, e: string, quote: string -> bool)
    requires Readable(quote)
    ensures ScanAll(Scanner(out, "", false, false), if quote(e) then Quote(e) else e) == Scanner(out, e, false, false)
  {
    hide ScanAll, Quote;
    if quote(e) { ScanQuoted(out, e); } else { ScanBare(out, e); }
  }

  lemma {:induction false} ScanElements(a: seq<string>, quote: string -> bool)
    requires Readable(quote) && a != []
    ensures ScanAll(START, Elements(a, quote)) == Scanner(a[..|a| - 1], a[|a| - 1], false, false)
    ensures Elements(a, quote) != ""
  {
    hide ScanAll, Escape;
    var n := |a| - 1;
    var e := a[n];
    ScanElement(a[..n], e, quote);
    if n > 0 {
      ScanElements(a[..n], quote);
      hide Readable, Quote;
      var front := Elements(a[..n], quote);
      ScanOneMore(START, front, ',');
      assert a[..n][..n - 1] + [a[n - 1]] == a[..n];
      ScanTwo(START, front + [','], if quote(e) then Quote(e) else e);
    } else {
      assert a[..0] == [];
    }
  }

  /** However the elements are quoted, as long as Scan can read it, Scan gives the array back: nothing
      is lost to empty strings, quotes, backslashes, commas or braces. */
  lemma ParseOfLiteral(a: seq<string>, quote: string -> bool)
    requires Readable(quote)
    ensures Parse(Literal(a, quote)) == a
  {
    var literal := Literal(a, quote);
    assert literal[..|literal| - 1] == ['{'] + Elements(a, quote);
    assert TrimBraces(literal) == Elements(a, quote);
    if a != [] {
      ScanElements(a, quote);
      assert a[..|a| - 1] + [a[|a| - 1]] == a;
    }
  }

  /** Scan inverts Value on every array of strings, nil included ... */
  method ScanOfValue(a: StringArray) returns (r: Result<StringArray, ScanError>)
    ensures r == Ok(a)
  {
    var v := Value(a);
    if a.Some? { ParseOfLiteral(a.value, Always); }
    r := Scan(v);
  }

  /** ... and PostgreSQL's own printing of the array. */
  lemma ScanInvertsPostgres(a: seq<string>)
    ensures Parse(Literal(a, PostgresQuotes)) == a
  {
    forall e | !PostgresQuotes(e) ensures e != "" && '"' !in e && ',' !in e {
      assert forall i | 0 <= i < |e| :: !(e[i] in "{},\"\\" || IsSpace(e[i]));
      assert '"' in "{},\"\\" && ',' in "{},\"\\";
    }
    ParseOfLiteral(a, PostgresQuotes);
  }

  /** Scanning only adds elements, and without a new one a character adds at most itself. */
  lemma {:induction false} ScanAddsAtMost(s: Scanner, text: string)
    ensures var r := ScanAll(s, text);
            |r.out| >= |s.out| && (|r.out| == |s.out| ==> |r.cur| <= |s.cur| + |text|)
  {
    if text != "" {
      ScanAddsAtMost(s, text[..|text| - 1]);
    }
  }

  /** An element left bare although it is empty or has a quote or a comma does not come back. */
  lemma BareSpecialIsLost(e: string, quote: string -> bool)
    requires !quote(e) && (e == "" || '"' in e || ',' in e)
    ensures Parse(Literal([e], quote)) != [e]
  {
    var literal := Literal([e], quote);
    assert literal[..|literal| - 1] == ['{'] + e && TrimBraces(literal) == e;
    if e != "" {
      var k := FirstSpecial(e);
      ScanBare([], e[..k]);
      ScanOneMore(START, e[..k], e[k]);
      assert e[..k] + [e[k]] == e[..k + 1] && e == e[..k + 1] + e[k + 1..];
      ScanTwo(START, e[..k + 1], e[k + 1..]);
      ScanAddsAtMost(ScanAll(START, e[..k + 1]), e[k + 1..]);
    }
  }

  lemma FirstSpecial(e: string) returns (k: nat)
    requires '"' in e || ',' in e
    ensures k < |e| && (e[k] == '"' || e[k] == ',') && '"' !in e[..k] && ',' !in e[..k]
  {
    k := 0;
    while e[k] != '"' && e[k] != ','
      invariant k < |e| && forall j | 0 <= j < k :: e[j] != '"' && e[j] != ','
      decreases |e| - k
    {
      k := k + 1;
    }
  }

  /** Scan gives back every array printed with a way of quoting if and only if it can read it. */
  lemma ScanInvertsIffReadable(quote: string -> bool)
    ensures (forall a :: Parse(Literal(a, quote)) == a) <==> Readable(quote)
  {
    if Readable(quote) {
      forall a ensures Parse(Literal(a, quote)) == a { ParseOfLiteral(a, quote); }
    } else {
      var e :| !quote(e) && !(e != "" && '"' !in e && ',' !in e);
      BareSpecialIsLost(e, quote);
    }
  }

  // ----- PostgreSQL's own reading of a literal -----

  /** cur is the element being read; wasQuoted says that it had quotes, which are closed again. */
  datatype Reader = Reader(out: seq<Option<string>>, cur: string, quoted: bool, escaped: bool, wasQuoted: bool, broken: bool)

  function TrimSpace(s: string): string
    decreases |s|
  {
    if s != "" && IsSpace(s[0]) then TrimSpace(s[1..])
    else if s != "" && IsSpace(s[|s| - 1]) then TrimSpace(s[..|s| - 1])
    else s
  }

  predicate ReadsNull(s: string) {
    |s| == 4 && Upper(s[0]) == 'N' && Upper(s[1]) == 'U' && Upper(s[2]) == 'L' && Upper(s[3]) == 'L'
  }

  /** A quoted element is what is between the quotes; a bare one is trimmed, must not be empty, and is
      NULL if it reads so. */
  function EndElement(r: Reader): Reader {
    var bare := TrimSpace(r.cur);
    if r.quoted || r.escaped || (!r.wasQuoted && bare == "") then r.(broken := true)
    else
      r.(out := r.out + [if r.wasQuoted then Some(r.cur) else if ReadsNull(bare) then None else Some(bare)],
         cur := "", wasQuoted := false)
  }

  function PgChar(r: Reader, c: char): Reader {
    if r.broken then r
    else if r.escaped then r.(cur := r.cur + [c], escaped := false)
    else if c == '\\' then r.(escaped := true)
    else if r.quoted then if c == '"' then r.(quoted := false, wasQuoted := true) else r.(cur := r.cur + [c])
    else if c == ',' then EndElement(r)
    else if c == '"' then if r.wasQuoted || TrimSpace(r.cur) != "" then r.(broken := true) else r.(cur := "", quoted := true)
    else if c == '{' || c == '}' then r.(broken := true)
    else if !r.wasQuoted then r.(cur := r.cur + [c])
    else if IsSpace(c) then r
    else r.(broken := true)
  }

  function PgAll(r: Reader, text: string): Reader {
    if text == "" then r else PgChar(PgAll(r, text[..|text| - 1]), text[|text| - 1])
  }

  const PG_START := Reader([], "", false, false, false, false)

  /** The one-dimensional array PostgreSQL reads, NULL elements as None; None if it refuses the literal. */
  function PgParse(literal: string): Option<seq<Option<string>>> {
    if |literal| < 2 || literal[0] != '{' || literal[|literal| - 1] != '}' then None
    else
      var inner := literal[1..|literal| - 1];
      var r := EndElement(PgAll(PG_START, inner));
      if inner == "" then Some([]) else if r.broken then None else Some(r.out)
  }

  lemma {:induction false} PgTwo(r: Reader, a: string, b: string)
    ensures PgAll(r, a + b) == PgAll(PgAll(r, a), b)
  {
    if b == "" {
      assert a + b == a;
    } else {
      assert (a + b)[..|a + b| - 1] == a + b[..|b| - 1];
      PgTwo(r, a, b[..|b| - 1]);
    }
  }

  lemma PgOne(r: Reader, a: string, c: char)
    ensures PgAll(r, a + [c]) == PgChar(PgAll(r, a), c)
  {
    assert (a + [c])[..|a|] == a;
  }

  lemma {:induction false} PgEscaped(out: seq<Option<string>>, e: string)
    ensures PgAll(Reader(out, "", true, false, false, false), Escape(e)) == Reader(out, e, true, false, false, false)
  {
    if e != "" {
      var r, front, c := Reader(out, "", true, false, false, false), e[..|e| - 1], e[|e| - 1];
      PgEscaped(out, front);
      assert front + [c] == e;
      if c == '"' || c == '\\' {
        PgOne(r, Escape(front), '\\');
        PgOne(r, Escape(front) + ['\\'], c);
        assert Escape(e) == Escape(front) + ['\\'] + [c];
      } else {
        PgOne(r, Escape(front), c);
      }
    }
  }

  lemma PgQuoted(out: seq<Option<string>>, e: string)
    ensures PgAll(Reader(out, "", false, false, false, false), Quote(e)) == Reader(out, e, false, false, true, false)
  {
    var r := Reader(out, "", false, false, false, false);
    PgOne(r, "", '"');
    assert "" + ['"'] == ['"'];
    PgTwo(r, ['"'], Escape(e));
    PgEscaped(out, e);
    PgOne(r, ['"'] + Escape(e), '"');
  }

  function Present(a: seq<string>): seq<Option<string>> { seq(|a|, i requires 0 <= i < |a| => Some(a[i])) }

  lemma PgComma(out: seq<Option<string>>, e: string)
    ensures PgChar(Reader(out, e, false, false, true, false), ',') == Reader(out + [Some(e)], "", false, false, false, false)
  {
    hide TrimSpace;
  }

  lemma QuotedIsText(e: string)
    ensures Quote(e) != ""
  {
  }

  lemma {:induction false} PgElements(a: seq<string>)
    requires a != []
    ensures PgAll(PG_START, Elements(a, Always)) == Reader(Present(a[..|a| - 1]), a[|a| - 1], false, false, true, false)
    ensures Elements(a, Always) != ""
  {
    hide Quote, PgChar, PgAll, Escape, TrimSpace, EndElement;
    var n := |a| - 1;
    PgQuoted(Present(a[..n]), a[n]);
    QuotedIsText(a[n]);
    if n > 0 {
      PgElements(a[..n]);
      var front := Elements(a[..n], Always);
      PgOne(PG_START, front, ',');
      PgComma(Present(a[..n][..n - 1]), a[n - 1]);
      assert Present(a[..n][..n - 1]) + [Some(a[n - 1])] == Present(a[..n]);
      PgTwo(PG_START, front + [','], Quote(a[n]));
    } else {
      assert Present(a[..0]) == [];
    }
  }

  lemma NoElements()
    ensures Elements([], Always) == "" && Present([]) == []
  {
  }

  /** PostgreSQL reads what Value prints as the same array: no element is NULL, trimmed, split or taken
      for syntax. */
  lemma PostgresReadsValue(a: seq<string>)
    ensures PgParse(Literal(a, Always)) == Some(Present(a))
  {
    hide PgAll, Elements, TrimSpace;
    var literal := Literal(a, Always);
    assert literal[1..|literal| - 1] == Elements(a, Always);
    if a == [] {
      NoElements();
    } else {
      PgElements(a);
      assert Present(a[..|a| - 1]) + [Some(a[|a| - 1])] == Present(a);
    }
  }

  method ValueForPostgres(a: seq<string>) returns (v: Source)
    ensures v.Text? && PgParse(v.text) == Some(Present(a))
  {
    PostgresReadsValue(a);
    v := Value(Some(a));
  }
}
