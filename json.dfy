/** `JSON.stringify` and `JSON.parse` as the data layer uses them: on arrays
    of scalars (the bound parameters of a statement, which become part of a
    cache key) and on arrays of strings (the `tags` column). */
module Json {
  import opened Wrappers
  import opened Text

  /** A scalar bound to a statement placeholder or read from a column. */
  datatype Scalar = Null | Num(n: int) | Str(s: string)

  predicate IsDigit(c: char) {
    '0' <= c <= '9'
  }

  function DigitChar(d: nat): (c: char)
    requires d < 10
    ensures IsDigit(c) && c as int - '0' as int == d
  {
    ('0' as int + d) as char
  }

  /** Lower-case hexadecimal digit, as `JSON.stringify` writes them. */
  function HexChar(d: nat): char
    requires d < 16
  {
    if d < 10 then DigitChar(d) else ('a' as int + d - 10) as char
  }

  function HexValue(c: char): int {
    if '0' <= c <= '9' then c as int - '0' as int
    else if 'a' <= c <= 'f' then c as int - 'a' as int + 10
    else if 'A' <= c <= 'F' then c as int - 'A' as int + 10
    else -1
  }

  /** The decimal numeral of `n`, without leading zeros. */
  function Decimal(n: nat): (r: string)
    ensures |r| >= 1
    ensures forall i :: 0 <= i < |r| ==> IsDigit(r[i])
  {
    if n < 10 then [DigitChar(n)] else Decimal(n / 10) + [DigitChar(n % 10)]
  }

  /** The number a run of decimal digits denotes. */
  function DigitsValue(ds: string): (v: nat)
    requires forall i :: 0 <= i < |ds| ==> IsDigit(ds[i])
  {
    if ds == [] then 0
    else
      assert IsDigit(ds[|ds| - 1]);
      var d: nat := ds[|ds| - 1] as int - '0' as int;
      DigitsValue(ds[..|ds| - 1]) * 10 + d
  }

  /** The numeral of a positive number does not start with `0`. */
  lemma {:induction false} DecimalLead(n: nat)
    requires n >= 1
    ensures Decimal(n)[0] != '0'
  {
    if n >= 10 {
      DecimalLead(n / 10);
      assert Decimal(n)[0] == Decimal(n / 10)[0];
    }
  }

  lemma {:induction false} DecimalValue(n: nat)
    ensures DigitsValue(Decimal(n)) == n
  {
    if n >= 10 {
      DecimalValue(n / 10);
      var d := Decimal(n);
      assert d[..|d| - 1] == Decimal(n / 10);
    }
  }

  /** How `JSON.stringify` writes one character inside a string literal. */
  function Escape(c: char): string {
    if c == '"' then "\\\""
    else if c == '\\' then "\\\\"
    else if c as int == 8 then "\\b"
    else if c as int == 12 then "\\f"
    else if c == '\n' then "\\n"
    else if c == '\r' then "\\r"
    else if c == '\t' then "\\t"
    else if c as int < 0x20 then "\\u00" + [HexChar(c as int / 16), HexChar(c as int % 16)]
    else [c]
  }

  function EscapeAll(s: string): string {
    if s == [] then "" else Escape(s[0]) + EscapeAll(s[1..])
  }

  function EncodeScalar(v: Scalar): string {
    match v
    case Null => "null"
    case Num(n) => if n < 0 then "-" + Decimal(-n) else Decimal(n)
    case Str(s) => "\"" + EscapeAll(s) + "\""
  }

  function EncodeItems(vs: seq<Scalar>): string
    decreases |vs|
  {
    if vs == [] then ""
    else if |vs| == 1 then EncodeScalar(vs[0])
    else EncodeScalar(vs[0]) + "," + EncodeItems(vs[1..])
  }

  /** `JSON.stringify` of an array of scalars: no white space anywhere. */
  function Stringify(vs: seq<Scalar>): string {
    "[" + EncodeItems(vs) + "]"
  }

  // ---------------------------------------------------------------------
  // Parsing. Each parser takes the remaining text and returns the value it
  // read with the text after it, or None where `JSON.parse` throws.

  predicate IsJsonSpace(c: char) {
    c == ' ' || c == '\t' || c == '\n' || c == '\r'
  }

  function SkipSpace(s: string): (r: string)
    ensures |r| <= |s| && r == s[|s| - |r|..]
    ensures r == [] || !IsJsonSpace(r[0])
  {
    if s != [] && IsJsonSpace(s[0]) then SkipSpace(s[1..]) else s
  }

  /** Length of the run of digits at the start of `s`. */
  function DigitRun(s: string): (k: nat)
    ensures k <= |s|
    ensures forall i :: 0 <= i < k ==> IsDigit(s[i])
    ensures k == |s| || !IsDigit(s[k])
  {
    if s != [] && IsDigit(s[0]) then 1 + DigitRun(s[1..]) else 0
  }

  /** The character an escape sequence at the start of `s` stands for, and
      how many characters the sequence takes. */
  function Unescape(s: string): (r: Option<(char, nat)>)
    ensures r.Some? ==> 2 <= r.value.1 <= |s|
  {
    if |s| < 2 || s[0] != '\\' then None
    else if s[1] == '"' then Some(('"', 2))
    else if s[1] == '\\' then Some(('\\', 2))
    else if s[1] == '/' then Some(('/', 2))
    else if s[1] == 'b' then Some((8 as char, 2))
    else if s[1] == 'f' then Some((12 as char, 2))
    else if s[1] == 'n' then Some(('\n', 2))
    else if s[1] == 'r' then Some(('\r', 2))
    else if s[1] == 't' then Some(('\t', 2))
    else if s[1] == 'u' && |s| >= 6
            && HexValue(s[2]) >= 0 && HexValue(s[3]) >= 0 && HexValue(s[4]) >= 0 && HexValue(s[5]) >= 0 then
      var v := HexValue(s[2]) * 4096 + HexValue(s[3]) * 256 + HexValue(s[4]) * 16 + HexValue(s[5]);
      if 0xD800 <= v < 0xE000 then None else Some((v as char, 6))
    else None
  }

  /** The characters of a string literal whose opening quote is already read. */
  function ParseChars(s: string): (r: Option<(string, string)>)
    ensures r.Some? ==> |r.value.1| < |s|
    decreases |s|
  {
    if s == [] then None
    else if s[0] == '"' then Some(("", s[1..]))
    else if s[0] == '\\' then
      match Unescape(s)
      case None => None
      case Some(e) =>
        match ParseChars(s[e.1..])
        case None => None
        case Some(p) => Some(([e.0] + p.0, p.1))
    else if s[0] as int < 0x20 then None
    else
      match ParseChars(s[1..])
      case None => None
      case Some(p) => Some(([s[0]] + p.0, p.1))
  }

  /** A run of digits at the start of `s` and the number it denotes; JSON
      allows a leading zero only in the numeral `0` itself. */
  function ParseUnsigned(s: string): (r: Option<(nat, string)>)
    ensures r.Some? ==> |r.value.1| < |s|
  {
    var k := DigitRun(s);
    if k == 0 || (k > 1 && s[0] == '0') then None else Some((DigitsValue(s[..k]), s[k..]))
  }

  function ParseNumber(s: string): (r: Option<(Scalar, string)>)
    ensures r.Some? ==> |r.value.1| < |s|
  {
    if s != [] && s[0] == '-' then
      var p := ParseUnsigned(s[1..]);
      if p.None? then None else Some((Num(-(p.value.0 as int)), p.value.1))
    else
      var p := ParseUnsigned(s);
      if p.None? then None else Some((Num(p.value.0), p.value.1))
  }

  function ParseScalar(s: string): (r: Option<(Scalar, string)>)
    ensures r.Some? ==> |r.value.1| < |s|
  {
    if StartsWith(s, "null") then Some((Null, s[4..]))
    else if s != [] && s[0] == '"' then
      var p := ParseChars(s[1..]);
      if p.None? then None else Some((Str(p.value.0), p.value.1))
    else ParseNumber(s)
  }

  /** One or more comma-separated scalars. */
  function ParseItems(s: string): (r: Option<(seq<Scalar>, string)>)
    decreases |s|, 1
  {
    ItemsFrom(ParseScalar(SkipSpace(s)))
  }

  /** The items that follow once the first scalar `p` has been read: more
      after a comma, none otherwise. */
  function ItemsFrom(p: Option<(Scalar, string)>): (r: Option<(seq<Scalar>, string)>)
    decreases if p.Some? then |p.value.1| else 0, 0
  {
    if p.None? then None
    else
      var rest := SkipSpace(p.value.1);
      if rest != [] && rest[0] == ',' then
        var q := ParseItems(rest[1..]);
        if q.None? then None else Some(([p.value.0] + q.value.0, q.value.1))
      else Some(([p.value.0], rest))
  }

  /** `JSON.parse` of a text that must hold an array of scalars. */
  function Parse(s: string): Result<seq<Scalar>> {
    var t := SkipSpace(s);
    if t == [] || t[0] != '[' then Err("SyntaxError")
    else
      var u := SkipSpace(t[1..]);
      if u != [] && u[0] == ']' then
        if SkipSpace(u[1..]) == [] then Ok([]) else Err("SyntaxError")
      else
        var p := ParseItems(u);
        if p.Some? && p.value.1 != [] && p.value.1[0] == ']' && SkipSpace(p.value.1[1..]) == [] then Ok(p.value.0)
        else Err("SyntaxError")
  }

  // ---------------------------------------------------------------------
  // Round trip: parsing what `Stringify` wrote gives the array back.

  lemma HexRoundTrip(d: nat)
    requires d < 16
    ensures HexValue(HexChar(d)) == d
  {
  }

  lemma UnescapeEscape(c: char, y: string)
    requires |Escape(c)| > 1
    ensures Unescape(Escape(c) + y) == Some((c, |Escape(c)|))
    ensures (Escape(c) + y)[|Escape(c)|..] == y
  {
    var x := Escape(c) + y;
    if c != '"' && c != '\\' && c as int != 8 && c as int != 12 && c != '\n' && c != '\r' && c != '\t' && c as int < 0x20 {
      var hi, lo := c as int / 16, c as int % 16;
      HexRoundTrip(hi);
      HexRoundTrip(lo);
      assert x[2] == '0' && x[3] == '0' && x[4] == HexChar(hi) && x[5] == HexChar(lo);
      assert HexValue(x[2]) * 4096 + HexValue(x[3]) * 256 + HexValue(x[4]) * 16 + HexValue(x[5]) == c as int;
    }
  }

  lemma {:induction false} CharsRoundTrip(s: string, rest: string)
    ensures ParseChars(EscapeAll(s) + "\"" + rest) == Some((s, rest))
    decreases |s|
  {
    var x := EscapeAll(s) + "\"" + rest;
    if s == [] {
      assert x == "\"" + rest;
      assert x[1..] == rest;
    } else {
      var c, t := s[0], s[1..];
      var y := EscapeAll(t) + "\"" + rest;
      AppendAssoc(Escape(c), EscapeAll(t), "\"");
      AppendAssoc(Escape(c), EscapeAll(t) + "\"", rest);
      CharsRoundTrip(t, rest);
      CharsStep(c, y, t, rest);
      assert [c] + t == s;
    }
  }

  /** One written character, then what parses to `t`, parses to `c` then `t`. */
  lemma CharsStep(c: char, y: string, t: string, rest: string)
    requires ParseChars(y) == Some((t, rest))
    ensures ParseChars(Escape(c) + y) == Some(([c] + t, rest))
  {
    var x := Escape(c) + y;
    if |Escape(c)| > 1 {
      UnescapeEscape(c, y);
      assert x[0] == '\\';
    } else {
      assert x[0] == c && x[1..] == y;
    }
  }

  lemma DigitsParse(d: string, rest: string)
    requires |d| >= 1 && forall i :: 0 <= i < |d| ==> IsDigit(d[i])
    requires |d| == 1 || d[0] != '0'
    requires rest == [] || !IsDigit(rest[0])
    ensures ParseUnsigned(d + rest) == Some((DigitsValue(d), rest))
  {
    var t := d + rest;
    DigitRunPrefix(d, rest);
    assert t[..|d|] == d && t[|d|..] == rest;
  }

  lemma NumberRoundTrip(n: int, rest: string)
    requires rest == [] || !IsDigit(rest[0])
    ensures ParseNumber(EncodeScalar(Num(n)) + rest) == Some((Num(n), rest))
  {
    if n < 0 {
      NegativeRoundTrip(-n, rest);
    } else {
      NaturalRoundTrip(n, rest);
    }
  }

  lemma NaturalRoundTrip(m: nat, rest: string)
    requires rest == [] || !IsDigit(rest[0])
    ensures ParseNumber(Decimal(m) + rest) == Some((Num(m), rest))
  {
    var d := Decimal(m);
    var t := d + rest;
    DecimalValue(m);
    if m >= 1 { DecimalLead(m); }
    DigitsParse(d, rest);
    assert t[0] == d[0];
    NaturalParse(t, m, rest);
  }

  lemma NegativeRoundTrip(m: nat, rest: string)
    requires rest == [] || !IsDigit(rest[0])
    ensures ParseNumber("-" + Decimal(m) + rest) == Some((Num(-(m as int)), rest))
  {
    var d := Decimal(m);
    var t := d + rest;
    DecimalValue(m);
    if m >= 1 { DecimalLead(m); }
    DigitsParse(d, rest);
    NegativeParse(t, m, rest);
    AppendAssoc("-", d, rest);
  }

  lemma NaturalParse(t: string, v: nat, rest: string)
    requires t != [] && t[0] != '-'
    requires ParseUnsigned(t) == Some((v, rest))
    ensures ParseNumber(t) == Some((Num(v), rest))
  {
  }

  lemma NegativeParse(t: string, v: nat, rest: string)
    requires ParseUnsigned(t) == Some((v, rest))
    ensures ParseNumber("-" + t) == Some((Num(-(v as int)), rest))
  {
    var s := "-" + t;
    assert s[0] == '-' && s[1..] == t;
  }

  lemma {:induction false} DigitRunPrefix(d: string, rest: string)
    requires forall i :: 0 <= i < |d| ==> IsDigit(d[i])
    requires rest == [] || !IsDigit(rest[0])
    ensures DigitRun(d + rest) == |d|
    decreases |d|
  {
    if d == [] {
      assert d + rest == rest;
    } else {
      assert (d + rest)[1..] == d[1..] + rest;
      DigitRunPrefix(d[1..], rest);
    }
  }

  /** A value that `Stringify` writes never starts with white space, a comma
      or a closing bracket. */
  lemma EncodeScalarStart(v: Scalar)
    ensures |EncodeScalar(v)| > 0
    ensures var c := EncodeScalar(v)[0]; !IsJsonSpace(c) && c != ',' && c != ']' && c != '['
  {
  }

  lemma ScalarRoundTrip(v: Scalar, rest: string)
    requires rest == [] || rest[0] == ',' || rest[0] == ']'
    ensures ParseScalar(EncodeScalar(v) + rest) == Some((v, rest))
  {
    match v
    case Null => NullRoundTrip(rest);
    case Num(n) => NumRoundTrip(n, rest);
    case Str(s) => StrRoundTrip(s, rest);
  }

  lemma NullRoundTrip(rest: string)
    ensures ParseScalar(EncodeScalar(Null) + rest) == Some((Null, rest))
  {
    var x := "null" + rest;
    assert StartsWith(x, "null");
    assert x[4..] == rest;
  }

  lemma NumRoundTrip(n: int, rest: string)
    requires rest == [] || rest[0] == ',' || rest[0] == ']'
    ensures ParseScalar(EncodeScalar(Num(n)) + rest) == Some((Num(n), rest))
  {
    var x := EncodeScalar(Num(n)) + rest;
    assert x[0] == EncodeScalar(Num(n))[0];
    assert x[0] != 'n' && x[0] != '"';
    NumberRoundTrip(n, rest);
  }

  lemma StrRoundTrip(s: string, rest: string)
    ensures ParseScalar(EncodeScalar(Str(s)) + rest) == Some((Str(s), rest))
  {
    var e := EscapeAll(s) + "\"";
    var x := EncodeScalar(Str(s)) + rest;
    AppendAssoc("\"", e, rest);
    assert x[0] == '"' && x[1..] == e + rest;
    CharsRoundTrip(s, rest);
  }

  lemma SkipSpaceNoop(s: string)
    requires s != [] && !IsJsonSpace(s[0])
    ensures SkipSpace(s) == s
  {
  }

  /** Items start with the scalar read at the start of the text. */
  lemma ParseItemsFirst(x: string, v: Scalar, tail: string)
    requires SkipSpace(x) == x && ParseScalar(x) == Some((v, tail))
    ensures ParseItems(x) == ItemsFrom(Some((v, tail)))
  {
  }

  /** A scalar followed by the closing bracket is the last item. */
  lemma ItemsFromLast(v: Scalar, rest: string)
    requires rest != [] && rest[0] == ']'
    ensures ItemsFrom(Some((v, rest))) == Some(([v], rest))
  {
    SkipSpaceNoop(rest);
  }

  /** After a scalar and a comma, the items are that scalar followed by
      those parsed after the comma. */
  lemma ItemsFromStep(v: Scalar, tail: string, ws: seq<Scalar>, rest: string)
    requires tail != [] && tail[0] == ',' && ParseItems(tail[1..]) == Some((ws, rest))
    ensures ItemsFrom(Some((v, tail))) == Some(([v] + ws, rest))
  {
    SkipSpaceNoop(tail);
  }

  /** Written items are the first value written, then what follows it. */
  lemma ItemsShape(vs: seq<Scalar>, rest: string) returns (tail: string)
    requires |vs| >= 1
    ensures EncodeItems(vs) + rest == EncodeScalar(vs[0]) + tail
    ensures |vs| == 1 ==> tail == rest
    ensures |vs| > 1 ==> tail == "," + (EncodeItems(vs[1..]) + rest) && tail[1..] == EncodeItems(vs[1..]) + rest
  {
    var e := EncodeScalar(vs[0]);
    if |vs| == 1 {
      tail := rest;
    } else {
      var w := EncodeItems(vs[1..]);
      tail := "," + (w + rest);
      AppendAssoc(e + ",", w, rest);
      AppendAssoc(e, ",", w + rest);
    }
  }

  /** Written items start with no white space. */
  lemma ItemsUnspaced(vs: seq<Scalar>, rest: string)
    requires |vs| >= 1
    ensures SkipSpace(EncodeItems(vs) + rest) == EncodeItems(vs) + rest
  {
    var tail := ItemsShape(vs, rest);
    var e := EncodeScalar(vs[0]);
    EncodeScalarStart(vs[0]);
    assert (e + tail)[0] == e[0];
    SkipSpaceNoop(e + tail);
  }

  /** Parsing written items reads the first value, then goes on after it. */
  lemma FirstItem(vs: seq<Scalar>, rest: string) returns (tail: string)
    requires |vs| >= 1
    requires rest != [] && rest[0] == ']'
    ensures ParseItems(EncodeItems(vs) + rest) == ItemsFrom(Some((vs[0], tail)))
    ensures |vs| == 1 ==> tail == rest
    ensures |vs| > 1 ==> tail == "," + (EncodeItems(vs[1..]) + rest) && tail[1..] == EncodeItems(vs[1..]) + rest
  {
    tail := ItemsShape(vs, rest);
    ScalarRoundTrip(vs[0], tail);
    ItemsUnspaced(vs, rest);
    ParseItemsFirst(EncodeItems(vs) + rest, vs[0], tail);
  }

  lemma {:induction false} ItemsRoundTrip(vs: seq<Scalar>, rest: string)
    requires |vs| >= 1
    requires rest != [] && rest[0] == ']'
    ensures ParseItems(EncodeItems(vs) + rest) == Some((vs, rest))
    decreases |vs|
  {
    if |vs| == 1 {
      SingleItemRoundTrip(vs, rest);
    } else {
      ItemsRoundTrip(vs[1..], rest);
      MoreItemsRoundTrip(vs, rest);
    }
  }

  lemma SingleItemRoundTrip(vs: seq<Scalar>, rest: string)
    requires |vs| == 1
    requires rest != [] && rest[0] == ']'
    ensures ParseItems(EncodeItems(vs) + rest) == Some((vs, rest))
  {
    var v := vs[0];
    var tail := FirstItem(vs, rest);
    ItemsFromLast(v, rest);
    assert [v] == vs;
  }

  /** The induction step: the first item written, then the others. */
  lemma MoreItemsRoundTrip(vs: seq<Scalar>, rest: string)
    requires |vs| >= 2
    requires rest != [] && rest[0] == ']'
    requires ParseItems(EncodeItems(vs[1..]) + rest) == Some((vs[1..], rest))
    ensures ParseItems(EncodeItems(vs) + rest) == Some((vs, rest))
  {
    var v, ws := vs[0], vs[1..];
    var tail := FirstItem(vs, rest);
    ItemsFromStep(v, tail, ws, rest);
    HeadTail(vs);
  }

  lemma ParseEmptyArray(s: string)
    requires s == "[]"
    ensures Parse(s) == Ok([])
  {
    SkipSpaceNoop(s);
    SkipSpaceNoop(s[1..]);
  }

  lemma ParseArray(s: string, u: string, vs: seq<Scalar>)
    requires s == "[" + u && u != [] && u[0] != ']' && !IsJsonSpace(u[0])
    requires ParseItems(u) == Some((vs, "]"))
    ensures Parse(s) == Ok(vs)
  {
    assert s[0] == '[' && s[1..] == u;
    SkipSpaceNoop(s);
    SkipSpaceNoop(u);
    var close := "]";
    assert close[0] == ']' && close[1..] == [];
  }

  /** Parsing what `Stringify` wrote gives the array back. */
  lemma ParseStringify(vs: seq<Scalar>)
    ensures Parse(Stringify(vs)) == Ok(vs)
  {
    if vs == [] {
      assert Stringify(vs) == "[]";
      ParseEmptyArray(Stringify(vs));
    } else {
      var u := EncodeItems(vs) + "]";
      ItemsRoundTrip(vs, "]");
      ItemsStart(vs, "]");
      AppendAssoc("[", EncodeItems(vs), "]");
      ParseArray("[" + u, u, vs);
    }
  }

  /** Written items start with the first character of the first value. */
  lemma ItemsStart(vs: seq<Scalar>, rest: string)
    requires |vs| >= 1
    ensures var u := EncodeItems(vs) + rest; u != [] && !IsJsonSpace(u[0]) && u[0] != ']'
  {
    var tail := ItemsShape(vs, rest);
    var e := EncodeScalar(vs[0]);
    EncodeScalarStart(vs[0]);
    assert (e + tail)[0] == e[0];
  }

  /** Distinct arrays are written differently. */
  lemma StringifyInjective(a: seq<Scalar>, b: seq<Scalar>)
    ensures Stringify(a) == Stringify(b) <==> a == b
  {
    ParseStringify(a);
    ParseStringify(b);
  }

  // ---------------------------------------------------------------------
  // The `tags` column: a list of strings written with JSON.stringify.

  function TagsToScalars(tags: seq<string>): (vs: seq<Scalar>)
    ensures |vs| == |tags| && forall i :: 0 <= i < |tags| ==> vs[i] == Str(tags[i])
  {
    seq(|tags|, i requires 0 <= i < |tags| => Str(tags[i]))
  }

  function EncodeTags(tags: seq<string>): string {
    Stringify(TagsToScalars(tags))
  }

  /** Writing a tag list and reading it back is lossless. */
  lemma TagsRoundTrip(tags: seq<string>)
    ensures ParseValue(EncodeTags(tags)) == Ok(List(TagsToScalars(tags)))
  {
    ValueStringify(TagsToScalars(tags));
  }

  // ---------------------------------------------------------------------
  // Whole documents: `JSON.parse` of any text the model can read.

  /** A JSON document as far as the model reads it: one scalar, or an array
      of scalars. */
  datatype Value = Atom(a: Scalar) | List(items: seq<Scalar>)

  /** `JSON.parse`: an array of scalars or a single scalar, white space
      around it allowed; every other text is an error. */
  function ParseValue(s: string): Result<Value> {
    var t := SkipSpace(s);
    if t != [] && t[0] == '[' then
      var a := Parse(t);
      if a.Err? then Err(a.msg) else Ok(List(a.value))
    else
      var p := ParseScalar(t);
      if p.Some? && SkipSpace(p.value.1) == [] then Ok(Atom(p.value.0)) else Err("SyntaxError")
  }

  /** `JSON.parse(JSON.stringify(xs))` gives the array back as a document. */
  lemma ValueStringify(vs: seq<Scalar>)
    ensures ParseValue(Stringify(vs)) == Ok(List(vs))
  {
    var w := Stringify(vs);
    assert w[0] == '[';
    SkipSpaceNoop(w);
    ParseStringify(vs);
  }

  /** A single scalar written by `JSON.stringify` parses back to itself. */
  lemma AtomRoundTrip(v: Scalar)
    ensures ParseValue(EncodeScalar(v)) == Ok(Atom(v))
  {
    EncodeScalarStart(v);
    SkipSpaceNoop(EncodeScalar(v));
    ScalarRoundTrip(v, []);
    assert EncodeScalar(v) + [] == EncodeScalar(v);
  }

  /** A numeral of two or more digits starting with `0` is not read. */
  lemma LeadingZeroUnread(s: string)
    requires |s| >= 2 && s[0] == '0' && IsDigit(s[1])
    ensures ParseUnsigned(s).None? && ParseNumber(s).None? && ParseNumber("-" + s).None?
  {
    assert s[1..][0] == s[1];
    assert DigitRun(s) == 1 + DigitRun(s[1..]);
    assert ("-" + s)[1..] == s;
  }

  /** A bare numeral with a leading zero is a syntax error. */
  lemma BareLeadingZero(s: string)
    requires |s| >= 2 && s[0] == '0' && IsDigit(s[1])
    ensures ParseValue(s).Err?
  {
    LeadingZeroUnread(s);
    SkipSpaceNoop(s);
  }

  /** So is a negative one. */
  lemma SignedLeadingZero(m: string)
    requires |m| >= 3 && m[0] == '-' && m[1] == '0' && IsDigit(m[2])
    ensures ParseValue(m).Err?
  {
    var s := m[1..];
    LeadingZeroUnread(s);
    SkipSpaceNoop(m);
    assert !StartsWith(m, "null");
  }

  /** And so is an array whose first item has one. */
  lemma ListLeadingZero(a: string)
    requires |a| >= 3 && a[0] == '[' && a[1] == '0' && IsDigit(a[2])
    ensures ParseValue(a).Err?
  {
    var s := a[1..];
    LeadingZeroUnread(s);
    SkipSpaceNoop(a);
    SkipSpaceNoop(s);
    assert ParseItems(s).None?;
  }

  /** For example `01`, `-01` and `[01]`. */
  lemma LeadingZeroExamples()
    ensures ParseValue("01").Err? && ParseValue("-01").Err? && ParseValue("[01]").Err?
  {
    BareLeadingZero("01");
    SignedLeadingZero("-01");
    ListLeadingZero("[01]");
  }
}
