/** Postgres text array literals: the printer used for query parameters and the parser used for columns. */
module PgArray {
  import opened Options

  // ---------------------------------------------------------------------------------------------
  // Printing
  // ---------------------------------------------------------------------------------------------

  /** `s.replace(/c/g, with)`. */
  function ReplaceAll(s: string, c: char, with: string): string {
    if s == "" then "" else (if s[0] == c then with else [s[0]]) + ReplaceAll(s[1..], c, with)
  }

  /** An element in quotes, backslashes doubled first and quotes escaped second. */
  function Quoted(v: string): string {
    "\"" + ReplaceAll(ReplaceAll(v, '\\', "\\\\"), '\"', "\\\"") + "\""
  }

  function Join(parts: seq<string>): string {
    if parts == [] then ""
    else if |parts| == 1 then parts[0]
    else parts[0] + "," + Join(parts[1..])
  }

  function QuotedAll(values: seq<string>): (tokens: seq<string>)
    ensures |tokens| == |values| && forall i :: 0 <= i < |values| ==> tokens[i] == Quoted(values[i])
  {
    if values == [] then [] else [Quoted(values[0])] + QuotedAll(values[1..])
  }

  function Literal(tokens: seq<string>): string {
    "{" + Join(tokens) + "}"
  }

  function PgTextArray(values: seq<string>): string {
    Literal(QuotedAll(values))
  }

  // ---------------------------------------------------------------------------------------------
  // Parsing
  // ---------------------------------------------------------------------------------------------

  /** A column as the driver hands it over. */
  datatype Column = Missing | Parsed(elements: seq<string>) | Raw(literal: string)

  /** `s.slice(1, -1)`. */
  function Inner(s: string): string {
    if |s| <= 2 then "" else s[1..|s| - 1]
  }

  /** The parser's reading of the rest of a literal; a trailing backslash reads as the text "undefined". */
  function Scan(s: string, elements: seq<string>, current: string, inQuotes: bool): seq<string>
    decreases |s|
  {
    if s == "" then elements + [current]
    else if inQuotes then
      if s[0] == '\\' then
        if |s| == 1 then elements + [current + "undefined"] else Scan(s[2..], elements, current + [s[1]], true)
      else if s[0] == '\"' then Scan(s[1..], elements, current, false)
      else Scan(s[1..], elements, current + [s[0]], true)
    else if s[0] == '\"' then Scan(s[1..], elements, current, true)
    else if s[0] == ',' then Scan(s[1..], elements + [current], "", false)
    else Scan(s[1..], elements, current + [s[0]], false)
  }

  function ParseLiteral(s: string): seq<string> {
    if Inner(s) == "" then [] else Scan(Inner(s), [], "", false)
  }

  method ParsePgArray(value: Column) returns (r: Option<seq<string>>)
    ensures value.Missing? ==> r == None
    ensures value.Parsed? ==> r == Some(value.elements)
    ensures value.Raw? ==> r == Some(ParseLiteral(value.literal))
  {
    if value.Missing? {
      return None;
    }
    if value.Parsed? {
      return Some(value.elements);
    }
    var inner := Inner(value.literal);
    if inner == "" {
      return Some([]);
    }
    var elements: seq<string> := [];
    var current := "";
    var inQuotes := false;
    ghost var all := Scan(inner, [], "", false);
    var i := 0;
    while i < |inner|
      invariant i <= |inner| + 1
      invariant i <= |inner| ==> Scan(inner[i..], elements, current, inQuotes) == all
      invariant i > |inner| ==> elements + [current] == all
    {
      var ch := inner[i];
      ghost var rest := inner[i..];
      assert rest[1..] == inner[i + 1..];
      if inQuotes {
        if ch == '\\' {
          i := i + 1;
          assert i < |inner| ==> rest[2..] == inner[i + 1..];
          current := current + (if i < |inner| then [inner[i]] else "undefined");
        } else if ch == '\"' {
          inQuotes := false;
        } else {
          current := current + [ch];
        }
      } else if ch == '\"' {
        inQuotes := true;
      } else if ch == ',' {
        elements := elements + [current];
        current := "";
      } else {
        current := current + [ch];
      }
      i := i + 1;
    }
    elements := elements + [current];
    return Some(elements);
  }

  // ---------------------------------------------------------------------------------------------
  // Round trips
  // ---------------------------------------------------------------------------------------------

  /** What the two replacements make of one character. */
  function EscapeChar(c: char): string {
    if c == '\\' then "\\\\" else if c == '\"' then "\\\"" else [c]
  }

  function Escape(s: string): string {
    if s == "" then "" else EscapeChar(s[0]) + Escape(s[1..])
  }

  lemma {:induction false} ReplaceAllConcat(s: string, t: string, c: char, with: string)
    ensures ReplaceAll(s + t, c, with) == ReplaceAll(s, c, with) + ReplaceAll(t, c, with)
  {
    if s == "" {
      assert s + t == t;
    } else {
      var head := if s[0] == c then with else [s[0]];
      ReplaceAllConcat(s[1..], t, c, with);
      assert (s + t)[1..] == s[1..] + t;
      assert head + (ReplaceAll(s[1..], c, with) + ReplaceAll(t, c, with))
          == (head + ReplaceAll(s[1..], c, with)) + ReplaceAll(t, c, with);
    }
  }

  lemma {:induction false} ReplaceAllShort(s: string, c: char, with: string)
    ensures |s| == 1 && s[0] == c ==> ReplaceAll(s, c, with) == with
    ensures |s| == 1 && s[0] != c ==> ReplaceAll(s, c, with) == s
    ensures |s| == 2 && s[0] != c && s[1] != c ==> ReplaceAll(s, c, with) == s
  {
    if |s| == 1 {
      assert s[1..] == "";
    } else if |s| == 2 {
      ReplaceAllShort(s[1..], c, with);
      assert s == [s[0]] + s[1..];
    }
  }

  /** The two passes do not disturb each other: together they escape character by character. */
  lemma {:induction false} TwoPassesEscape(v: string)
    ensures ReplaceAll(ReplaceAll(v, '\\', "\\\\"), '\"', "\\\"") == Escape(v)
  {
    if v != "" {
      var head := if v[0] == '\\' then "\\\\" else [v[0]];
      TwoPassesEscape(v[1..]);
      ReplaceAllConcat(head, ReplaceAll(v[1..], '\\', "\\\\"), '\"', "\\\"");
      ReplaceAllShort(head, '\"', "\\\"");
    }
  }

  lemma {:induction false} ScanEscaped(v: string, rest: string, elements: seq<string>, current: string)
    ensures Scan(Escape(v) + "\"" + rest, elements, current, true) == Scan(rest, elements, current + v, false)
    decreases |v|
  {
    var s := Escape(v) + "\"" + rest;
    if v == "" {
      assert s[1..] == rest;
      assert current + v == current;
    } else {
      var tail := Escape(v[1..]) + "\"" + rest;
      assert s == EscapeChar(v[0]) + tail;
      ScanEscaped(v[1..], rest, elements, current + [v[0]]);
      assert current + [v[0]] + v[1..] == current + v;
      assert s[|EscapeChar(v[0])|..] == tail;
    }
  }

  /** Text an unquoted element may consist of. */
  predicate Plain(v: string) {
    forall i :: 0 <= i < |v| ==> v[i] != '\"' && v[i] != ','
  }

  lemma {:induction false} ScanPlain(v: string, rest: string, elements: seq<string>, current: string)
    requires Plain(v)
    ensures Scan(v + rest, elements, current, false) == Scan(rest, elements, current + v, false)
    decreases |v|
  {
    if v == "" {
      assert v + rest == rest && current + v == current;
    } else {
      assert (v + rest)[1..] == v[1..] + rest;
      ScanPlain(v[1..], rest, elements, current + [v[0]]);
      assert current + [v[0]] + v[1..] == current + v;
    }
  }

  /** A written form of an element: in quotes, or bare when nothing in it needs quoting. */
  ghost predicate Writes(token: string, v: string) {
    token == Quoted(v) || (token == v && Plain(v))
  }

  lemma {:induction false} ScanToken(token: string, v: string, rest: string, elements: seq<string>)
    requires Writes(token, v)
    ensures Scan(token + rest, elements, "", false) == Scan(rest, elements, v, false)
  {
    assert "" + v == v;
    if token == Quoted(v) {
      TwoPassesEscape(v);
      assert token + rest == "\"" + (Escape(v) + "\"" + rest);
      assert (token + rest)[1..] == Escape(v) + "\"" + rest;
      ScanEscaped(v, rest, elements, "");
    } else {
      ScanPlain(v, rest, elements, "");
    }
  }

  lemma {:induction false} ScanTokens(tokens: seq<string>, vs: seq<string>, elements: seq<string>)
    requires |tokens| == |vs| > 0 && forall i :: 0 <= i < |vs| ==> Writes(tokens[i], vs[i])
    ensures Scan(Join(tokens), elements, "", false) == elements + vs
    decreases tokens
  {
    if |tokens| == 1 {
      ScanToken(tokens[0], vs[0], "", elements);
      assert tokens[0] + "" == tokens[0] && vs == [vs[0]];
    } else {
      var rest := "," + Join(tokens[1..]);
      ScanToken(tokens[0], vs[0], rest, elements);
      assert tokens[0] + rest == Join(tokens);
      assert rest[1..] == Join(tokens[1..]);
      ScanTokens(tokens[1..], vs[1..], elements + [vs[0]]);
      assert elements + [vs[0]] + vs[1..] == elements + vs;
    }
  }

  lemma {:induction false} LiteralInner(tokens: seq<string>)
    ensures Inner(Literal(tokens)) == Join(tokens)
  {
  }

  lemma {:induction false} JoinEmpty(tokens: seq<string>)
    ensures Join(tokens) == "" <==> tokens == [] || tokens == [""]
  {
  }

  /**
   The parser recovers every list from every way of writing it, each element in quotes or bare, unless
   the list is a single empty string written bare, which reads as the empty list.
   */
  lemma {:induction false} ParserReadsEveryForm(tokens: seq<string>, vs: seq<string>)
    requires |tokens| == |vs| && forall i :: 0 <= i < |vs| ==> Writes(tokens[i], vs[i])
    ensures ParseLiteral(Literal(tokens)) == vs <==> tokens != [""]
  {
    LiteralInner(tokens);
    JoinEmpty(tokens);
    if vs != [] {
      ScanTokens(tokens, vs, []);
    }
  }

  /** Parsing a printed array gives the list back, whatever its strings contain. */
  lemma {:induction false} RoundTrip(vs: seq<string>)
    ensures ParseLiteral(PgTextArray(vs)) == vs
  {
    ParserReadsEveryForm(QuotedAll(vs), vs);
  }

  /** Different lists print differently. */
  lemma {:induction false} PrintingIsInjective(vs: seq<string>, ws: seq<string>)
    requires PgTextArray(vs) == PgTextArray(ws)
    ensures vs == ws
  {
    RoundTrip(vs);
    RoundTrip(ws);
  }

  /** A quoted element cut off after a backslash is not rejected: the missing character reads as text. */
  lemma {:induction false} TrailingBackslash()
    ensures ParseLiteral("{\"\\}") == ["undefined"]
  {
    var inner := "\"\\";
    assert Inner("{\"\\}") == inner;
    assert inner[1..] == "\\";
    assert Scan(inner[1..], [], "", true) == ["undefined"] by {
      assert "" + "undefined" == "undefined";
    }
  }
}
