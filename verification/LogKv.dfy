/** The `key=value` quoting of the audit lines, and why no value can forge another field. */
module LogKv {
  import opened Common
  import opened Text

  predicate NeedsQuoting(value: string) {
    exists i :: 0 <= i < |value| && (IsSpace(value[i]) || value[i] == '"' || value[i] == '=')
  }

  function EscapeChar(c: char): string {
    match c case '"' => "\\\"" case '\\' => "\\\\" case c => [c]
  }

  function Escape(value: string): string {
    if value == "" then "" else EscapeChar(value[0]) + Escape(value[1..])
  }

  /** `log_kv::quote`. */
  function Quoted(value: string): string {
    if value == "" then "\"\""
    else if NeedsQuoting(value) then "\"" + Escape(value) + "\""
    else value
  }

  method Quote(value: string) returns (out: string)
    ensures out == Quoted(value)
  {
    if value == "" { return "\"\""; }
    if !NeedsQuoting(value) { return value; }
    out := "\"";
    for i := 0 to |value|
      invariant out == "\"" + Escape(value[..i])
    {
      EscapeSnoc(value[..i], value[i]);
      assert value[..i + 1] == value[..i] + [value[i]];
      match value[i] {
        case '"' => out := out + "\\\"";
        case '\\' => out := out + "\\\\";
        case c => out := out + [c];
      }
    }
    assert value[..|value|] == value;
    out := out + "\"";
  }

  lemma {:induction false} EscapeSnoc(value: string, c: char)
    ensures Escape(value + [c]) == Escape(value) + EscapeChar(c)
  {
    if value == "" {
      assert value + [c] == [c];
    } else {
      assert (value + [c])[1..] == value[1..] + [c];
      EscapeSnoc(value[1..], c);
    }
  }

  // ---- reading a value back

  datatype Scanned = Scanned(value: string, rest: string)

  /** Up to the closing quote, undoing the backslashes. */
  function ScanQuoted(s: string): Option<Scanned>
    decreases |s|
  {
    if s == "" then None
    else if s[0] == '"' then Some(Scanned("", s[1..]))
    else if s[0] == '\\' && |s| == 1 then None
    else
      var k := if s[0] == '\\' then 1 else 0;
      match ScanQuoted(s[k + 1..])
      case None => None
      case Some(r) => Some(Scanned([s[k]] + r.value, r.rest))
  }

  /** A left-to-right reader of one value. */
  function Scan(s: string): Option<Scanned> {
    if s != "" && s[0] == '"' then ScanQuoted(s[1..])
    else var n := WordLen(s); Some(Scanned(s[..n], s[n..]))
  }

  predicate EndsField(rest: string) {
    rest == "" || IsSpace(rest[0])
  }

  /** One character, escaped if need be, in front of what is read already. */
  lemma ScanOneMore(c: char, t: string)
    requires ScanQuoted(t).Some?
    ensures ScanQuoted(EscapeChar(c) + t) == Some(Scanned([c] + ScanQuoted(t).value.value, ScanQuoted(t).value.rest))
  {
    var s := EscapeChar(c) + t;
    if c == '"' || c == '\\' {
      assert s[0] == '\\' && s[1] == c && s[2..] == t;
    } else {
      assert s[0] == c && s[1..] == t;
    }
  }

  lemma {:induction false} ScanEscaped(value: string, rest: string)
    ensures ScanQuoted(Escape(value) + "\"" + rest) == Some(Scanned(value, rest))
  {
    if value == "" {
      var s := "\"" + rest;
      assert Escape(value) + "\"" + rest == s && s[1..] == rest;
    } else {
      var c, after := value[0], value[1..];
      ScanEscaped(after, rest);
      var t := Escape(after) + "\"" + rest;
      assert Escape(value) + "\"" + rest == EscapeChar(c) + t by { hide ScanQuoted; }
      ScanOneMore(c, t);
      assert [c] + after == value;
    }
  }

  lemma ScanBare(value: string, rest: string)
    requires value != "" && !NeedsQuoting(value) && EndsField(rest)
    ensures Scan(value + rest) == Some(Scanned(value, rest))
  {
    var s := value + rest;
    assert s[0] == value[0];
    WordLenAt(value, rest);
    assert s[..|value|] == value && s[|value|..] == rest;
  }

  lemma ScanInQuotes(value: string, rest: string)
    ensures Scan("\"" + Escape(value) + "\"" + rest) == Some(Scanned(value, rest))
  {
    var s := "\"" + Escape(value) + "\"" + rest;
    assert s[1..] == Escape(value) + "\"" + rest;
    ScanEscaped(value, rest);
  }

  /** A quoted value is self-delimiting: the reader finds exactly it and what follows. */
  lemma QuoteIsSelfDelimiting(value: string, rest: string)
    requires EndsField(rest)
    ensures Scan(Quoted(value) + rest) == Some(Scanned(value, rest))
  {
    if value == "" || NeedsQuoting(value) {
      assert Quoted(value) == "\"" + Escape(value) + "\"";
      ScanInQuotes(value, rest);
    } else {
      ScanBare(value, rest);
    }
  }

  /** A line: literal text before each value, free text after the last. */
  function Render(literals: seq<string>, values: seq<string>, tail: string): string
    requires |literals| == |values|
  {
    if literals == [] then tail
    else literals[0] + (Quoted(values[0]) + Render(literals[1..], values[1..], tail))
  }

  /** After the first value of a line, every literal starts with a space. */
  predicate FieldSeparated(literals: seq<string>) {
    forall i :: 1 <= i < |literals| ==> literals[i] != "" && IsSpace(literals[i][0])
  }

  /** Two lines of the same shape are equal only if every value, and the rest, is. */
  lemma {:induction false} LinesAreInjective(
      literals: seq<string>, v: seq<string>, w: seq<string>, tailV: string, tailW: string)
    requires |literals| == |v| == |w| && FieldSeparated(literals)
    requires EndsField(tailV) && EndsField(tailW)
    requires Render(literals, v, tailV) == Render(literals, w, tailW)
    ensures v == w && tailV == tailW
  {
    if literals != [] {
      var restV, restW := Render(literals[1..], v[1..], tailV), Render(literals[1..], w[1..], tailW);
      DropLiteral(literals[0], Quoted(v[0]) + restV, Quoted(w[0]) + restW);
      RestEndsField(literals, v, tailV);
      RestEndsField(literals, w, tailW);
      QuoteIsSelfDelimiting(v[0], restV);
      QuoteIsSelfDelimiting(w[0], restW);
      LinesAreInjective(literals[1..], v[1..], w[1..], tailV, tailW);
      assert v == [v[0]] + v[1..] && w == [w[0]] + w[1..];
    }
  }

  lemma DropLiteral(literal: string, a: string, b: string)
    requires literal + a == literal + b
    ensures a == b
  {
    assert (literal + a)[|literal|..] == a && (literal + b)[|literal|..] == b;
  }

  lemma RestEndsField(literals: seq<string>, v: seq<string>, tail: string)
    requires |literals| == |v| && literals != [] && FieldSeparated(literals) && EndsField(tail)
    ensures EndsField(Render(literals[1..], v[1..], tail))
    ensures FieldSeparated(literals[1..])
  {
    if |literals| > 1 {
      var r := Render(literals[1..], v[1..], tail);
      assert r[0] == literals[1][0];
    }
  }
}
