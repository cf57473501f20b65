/** `JSON.stringify` on arrays of strings of single-byte characters: no two arrays have the same
    text. */
module Json {
  function Hex(n: nat): char
    requires n < 16
  {
    "0123456789abcdef"[n]
  }

  function EscapeChar(c: char): (r: string)
    ensures 0 < |r| && r[0] != '"'
  {
    if c == '"' then "\\\""
    else if c == '\\' then "\\\\"
    else if c == 8 as char then "\\b"
    else if c == 9 as char then "\\t"
    else if c == 10 as char then "\\n"
    else if c == 12 as char then "\\f"
    else if c == 13 as char then "\\r"
    else if c < ' ' then "\\u00" + [Hex(c as nat / 16), Hex(c as nat % 16)]
    else [c]
  }

  function Escape(s: string): string {
    if s == [] then [] else EscapeChar(s[0]) + Escape(s[1..])
  }

  function Quote(s: string): string { "\"" + (Escape(s) + "\"") }

  function Rest(cells: seq<string>): string {
    if cells == [] then "]" else "," + (Quote(cells[0]) + Rest(cells[1..]))
  }

  function Stringify(cells: seq<string>): string {
    if cells == [] then "[]" else "[" + (Quote(cells[0]) + Rest(cells[1..]))
  }

  lemma HexIsInjective(m: nat, n: nat)
    requires m < 16 && n < 16 && Hex(m) == Hex(n)
    ensures m == n
  {}

  predicate IsControl(c: char) { c < ' ' && c as int !in {8, 9, 10, 12, 13} }

  lemma ControlsDiffer(c: char, d: char)
    requires IsControl(c) && IsControl(d) && EscapeChar(c)[4] == EscapeChar(d)[4] && EscapeChar(c)[5] == EscapeChar(d)[5]
    ensures c == d
  {
    HexIsInjective(c as nat / 16, d as nat / 16);
    HexIsInjective(c as nat % 16, d as nat % 16);
  }

  /** One character can be read off the front of an escaped text in one way. */
  lemma CharIsReadable(c: char, d: char, r: string, q: string)
    requires EscapeChar(c) + r == EscapeChar(d) + q
    ensures c == d && r == q
  {
    var s := EscapeChar(c) + r;
    assert s[0] == EscapeChar(c)[0] == EscapeChar(d)[0];
    if s[0] == '\\' {
      assert s[1] == EscapeChar(c)[1] == EscapeChar(d)[1];
      if s[1] == 'u' {
        assert s[4] == EscapeChar(c)[4] == EscapeChar(d)[4];
        assert s[5] == EscapeChar(c)[5] == EscapeChar(d)[5];
        ControlsDiffer(c, d);
      }
    }
    assert c == d;
    assert r == s[|EscapeChar(c)|..] && q == s[|EscapeChar(d)|..];
  }

  lemma SameTail(c: char, r: string, q: string)
    requires [c] + r == [c] + q
    ensures r == q
  {
    assert ([c] + r)[1..] == r && ([c] + q)[1..] == q;
  }

  /** The closing quote is the first character only of an empty rest. */
  lemma ClosesWhenEmpty(s: string, r: string)
    ensures (Escape(s) + ("\"" + r))[0] == '"' <==> s == []
  {}

  lemma EscapeOneChar(s: string, r: string)
    requires s != []
    ensures Escape(s) + r == EscapeChar(s[0]) + (Escape(s[1..]) + r)
  {
    Associates(EscapeChar(s[0]), Escape(s[1..]), r);
  }

  lemma Associates(a: string, b: string, c: string)
    ensures (a + b) + c == a + (b + c)
  {}

  /** A string can be read off the front of a text, up to its closing quote, in one way. */
  lemma {:induction false} StringIsReadable(s: string, t: string, r: string, q: string)
    requires Escape(s) + ("\"" + r) == Escape(t) + ("\"" + q)
    ensures s == t && r == q
  {
    ClosesWhenEmpty(s, r);
    ClosesWhenEmpty(t, q);
    if s != [] {
      EscapeOneChar(s, "\"" + r);
      EscapeOneChar(t, "\"" + q);
      CharIsReadable(s[0], t[0], Escape(s[1..]) + ("\"" + r), Escape(t[1..]) + ("\"" + q));
      StringIsReadable(s[1..], t[1..], r, q);
    } else {
      assert Escape(s) + ("\"" + r) == "\"" + r && Escape(t) + ("\"" + q) == "\"" + q;
      SameTail('"', r, q);
    }
  }

  lemma QuoteIsReadable(s: string, t: string, r: string, q: string)
    requires Quote(s) + r == Quote(t) + q
    ensures s == t && r == q
  {
    assert Quote(s) + r == "\"" + (Escape(s) + ("\"" + r));
    assert Quote(t) + q == "\"" + (Escape(t) + ("\"" + q));
    SameTail('"', Escape(s) + ("\"" + r), Escape(t) + ("\"" + q));
    StringIsReadable(s, t, r, q);
  }

  lemma CellsAreReadable(c: char, a: seq<string>, b: seq<string>)
    requires a != [] && b != [] && [c] + (Quote(a[0]) + Rest(a[1..])) == [c] + (Quote(b[0]) + Rest(b[1..]))
    ensures a[0] == b[0] && Rest(a[1..]) == Rest(b[1..])
  {
    SameTail(c, Quote(a[0]) + Rest(a[1..]), Quote(b[0]) + Rest(b[1..]));
    QuoteIsReadable(a[0], b[0], Rest(a[1..]), Rest(b[1..]));
  }

  lemma {:induction false} RestIsReadable(a: seq<string>, b: seq<string>)
    requires Rest(a) == Rest(b)
    ensures a == b
  {
    assert Rest(a)[0] == Rest(b)[0];
    if a != [] {
      CellsAreReadable(',', a, b);
      RestIsReadable(a[1..], b[1..]);
    }
  }

  /** Two arrays of strings with the same text are the same. */
  lemma StringifyIsInjective(a: seq<string>, b: seq<string>)
    requires Stringify(a) == Stringify(b)
    ensures a == b
  {
    assert Stringify(a)[1] == Stringify(b)[1];
    if a != [] {
      CellsAreReadable('[', a, b);
      RestIsReadable(a[1..], b[1..]);
    }
  }
}
