/** String helpers shared by the backend and the client: decimal rendering of integers,
    Python's `str(None)`, substring search and joining with a separator. */
module Text {
  import opened Wrappers

  predicate IsDigit(c: char) {
    '0' <= c <= '9'
  }

  predicate AllDigits(s: string) {
    forall i :: 0 <= i < |s| ==> IsDigit(s[i])
  }

  function DigitChar(d: nat): (c: char)
    requires d < 10
    ensures IsDigit(c) && c as int - '0' as int == d
  {
    ('0' as int + d) as char
  }

  /** Decimal rendering of a natural number, most significant digit first, no leading zeros. */
  function NatToString(n: nat): (s: string)
    ensures |s| > 0 && AllDigits(s)
    ensures n < 10 <==> |s| == 1
    decreases n
  {
    if n < 10 then [DigitChar(n)] else NatToString(n / 10) + [DigitChar(n % 10)]
  }

  /** The value of a string of decimal digits (JavaScript's `parseInt(s, 10)` on digits only). */
  function DigitsValue(s: string): nat
    requires AllDigits(s)
    decreases |s|
  {
    if s == [] then 0 else DigitsValue(s[..|s| - 1]) * 10 + (s[|s| - 1] as int - '0' as int)
  }

  /** Reading back a rendered natural number gives the number. */
  lemma {:induction false} DigitsValueOfNatToString(n: nat)
    ensures DigitsValue(NatToString(n)) == n
  {
    if n >= 10 {
      var s := NatToString(n / 10);
      DigitsValueOfNatToString(n / 10);
      assert NatToString(n) == s + [DigitChar(n % 10)];
      assert (s + [DigitChar(n % 10)])[..|s|] == s;
    }
  }

  /** Python's `str(n)` / JavaScript's `${n}` for an integer. */
  function IntToString(n: int): string {
    if n < 0 then "-" + NatToString(-n) else NatToString(n)
  }

  /** Python's `f"{x}"` for an optional string: `None` renders as "None". */
  function PyStr(o: Option<string>): string {
    match o
    case None => "None"
    case Some(v) => v
  }

  /** Python's `sub in s` for strings. */
  predicate Contains(s: string, sub: string) {
    exists i | 0 <= i <= |s| - |sub| :: OccursAt(s, sub, i)
  }

  /** `sub` starts at position `i` of `s`. */
  predicate OccursAt(s: string, sub: string, i: int) {
    0 <= i <= |s| - |sub| && s[i..i + |sub|] == sub
  }

  /** A piece appended to a string occurs right after it. */
  lemma OccursAtEnd(x: string, sub: string)
    ensures OccursAt(x + sub, sub, |x|)
  {
    assert (x + sub)[|x|..] == sub;
  }

  /** An occurrence survives appending more text. */
  lemma OccursExtend(s: string, sub: string, i: int, y: string)
    requires OccursAt(s, sub, i)
    ensures OccursAt(s + y, sub, i)
  {
    assert (s + y)[i..i + |sub|] == s[i..i + |sub|];
  }

  /** The pieces of an interpolated string, in order. */
  function Concat(pieces: seq<string>): string
    decreases |pieces|
  {
    if |pieces| == 0 then "" else Concat(pieces[..|pieces| - 1]) + pieces[|pieces| - 1]
  }

  /** Every piece occurs in the concatenation, right after the pieces before it. */
  lemma {:induction false} ConcatPiece(pieces: seq<string>, k: int)
    requires 0 <= k < |pieces|
    ensures OccursAt(Concat(pieces), pieces[k], |Concat(pieces[..k])|)
    ensures Contains(Concat(pieces), pieces[k])
  {
    var n := |pieces|;
    var front := pieces[..n - 1];
    if k == n - 1 {
      assert front == pieces[..k];
      OccursAtEnd(Concat(front), pieces[k]);
    } else {
      ConcatPiece(front, k);
      assert front[..k] == pieces[..k];
      OccursExtend(Concat(front), pieces[k], |Concat(pieces[..k])|, pieces[n - 1]);
    }
  }

  /** The pieces before `k + 1` are those before `k` and then piece `k`. */
  lemma ConcatPrefixStep(pieces: seq<string>, k: int)
    requires 0 <= k < |pieces|
    ensures Concat(pieces[..k + 1]) == Concat(pieces[..k]) + pieces[k]
  {
    assert pieces[..k + 1][..k] == pieces[..k];
  }

  /** Seven pieces, each right after the ones before it. */
  lemma Concat7(a: string, b: string, c: string, d: string, e: string, f: string, g: string)
    ensures var r := Concat([a, b, c, d, e, f, g]);
      && OccursAt(r, a, 0)
      && OccursAt(r, b, |a|)
      && OccursAt(r, c, |a| + |b|)
      && OccursAt(r, d, |a| + |b| + |c|)
      && OccursAt(r, e, |a| + |b| + |c| + |d|)
      && OccursAt(r, f, |a| + |b| + |c| + |d| + |e|)
      && OccursAt(r, g, |a| + |b| + |c| + |d| + |e| + |f|)
      && |r| == |a| + |b| + |c| + |d| + |e| + |f| + |g|
  {
    var ps := [a, b, c, d, e, f, g];
    assert ps[..0] == [];
    ConcatPrefixStep(ps, 0);
    ConcatPrefixStep(ps, 1);
    ConcatPrefixStep(ps, 2);
    ConcatPrefixStep(ps, 3);
    ConcatPrefixStep(ps, 4);
    ConcatPrefixStep(ps, 5);
    ConcatPrefixStep(ps, 6);
    assert ps[..7] == ps;
    ConcatPiece(ps, 0);
    ConcatPiece(ps, 1);
    ConcatPiece(ps, 2);
    ConcatPiece(ps, 3);
    ConcatPiece(ps, 4);
    ConcatPiece(ps, 5);
    ConcatPiece(ps, 6);
  }

  /** `sep.join(parts)`. */
  function Join(parts: seq<string>, sep: string): string
    decreases |parts|
  {
    if |parts| == 0 then ""
    else if |parts| == 1 then parts[0]
    else parts[0] + sep + Join(parts[1..], sep)
  }

  lemma {:induction false} JoinSnoc(parts: seq<string>, x: string, sep: string)
    requires |parts| > 0
    ensures Join(parts + [x], sep) == Join(parts, sep) + sep + x
  {
    if |parts| > 1 {
      assert (parts + [x])[1..] == parts[1..] + [x];
      JoinSnoc(parts[1..], x, sep);
    }
  }

  // ---------------------------------------------------------------------------------------
  // Python's `repr` of a str

  /** The quote `repr` chooses: double quotes when the text has a single quote and no
      double quote, single quotes otherwise. */
  function ReprQuote(s: string): (q: char)
    ensures q == '"' <==> '\'' in s && '"' !in s
    ensures q == '\'' || q == '"'
  {
    if '\'' in s && '"' !in s then '"' else '\''
  }

  /** The characters up to U+00FF that `str.isprintable()` rejects: the C0 controls, DEL,
      the C1 controls, the no-break space and the soft hyphen. */
  predicate NonPrintable(c: char) {
    c < ' ' || ('\U{7F}' <= c <= '\U{A0}') || c == '\U{AD}'
  }

  function HexDigit(d: int): char
    requires 0 <= d < 16
  {
    "0123456789abcdef"[d]
  }

  /** One character as `repr` writes it between the quotes `q`: the quote and the backslash
      escaped, tab, newline and return by name, other non-printable characters as `\xhh`. */
  function ReprChar(c: char, q: char): string {
    if c == q || c == '\\' then ['\\', c]
    else if c == '\t' then "\\t"
    else if c == '\n' then "\\n"
    else if c == '\r' then "\\r"
    else if NonPrintable(c) then ['\\', 'x', HexDigit(c as int / 16), HexDigit(c as int % 16)]
    else [c]
  }

  function ReprBody(s: string, q: char): string
    decreases |s|
  {
    if |s| == 0 then "" else ReprChar(s[0], q) + ReprBody(s[1..], q)
  }

  /** `repr(s)`, which is also `str(KeyError(s))`. */
  function PyRepr(s: string): (r: string)
    ensures |r| >= 2 && r[0] == ReprQuote(s) && r[|r| - 1] == ReprQuote(s)
  {
    [ReprQuote(s)] + ReprBody(s, ReprQuote(s)) + [ReprQuote(s)]
  }

  function HexValue(c: char): (v: int)
    ensures -1 <= v < 16
  {
    if '0' <= c <= '9' then c as int - '0' as int
    else if 'a' <= c <= 'f' then c as int - 'a' as int + 10
    else -1
  }

  function Prepend(c: char, o: Option<string>): Option<string> {
    if o.Some? then Some([c] + o.value) else None
  }

  /** Reads the text between the quotes of a `repr` back, undoing its escapes. */
  function Unescape(b: string): Option<string>
    decreases |b|
  {
    if |b| == 0 then Some("")
    else if b[0] != '\\' then Prepend(b[0], Unescape(b[1..]))
    else if |b| < 2 then None
    else if b[1] == '\\' || b[1] == '\'' || b[1] == '"' then Prepend(b[1], Unescape(b[2..]))
    else if b[1] == 't' then Prepend('\t', Unescape(b[2..]))
    else if b[1] == 'n' then Prepend('\n', Unescape(b[2..]))
    else if b[1] == 'r' then Prepend('\r', Unescape(b[2..]))
    else if b[1] == 'x' && |b| >= 4 && HexValue(b[2]) >= 0 && HexValue(b[3]) >= 0 then
      Prepend((16 * HexValue(b[2]) + HexValue(b[3])) as char, Unescape(b[4..]))
    else None
  }

  lemma ReprCharUnescape(c: char, q: char, rest: string)
    requires q == '\'' || q == '"'
    ensures Unescape(ReprChar(c, q) + rest) == Prepend(c, Unescape(rest))
  {
    var e := ReprChar(c, q);
    if c == q || c == '\\' || c == '\t' || c == '\n' || c == '\r' {
      assert (e + rest)[2..] == rest;
    } else if NonPrintable(c) {
      var n := c as int;
      assert HexValue(HexDigit(n / 16)) == n / 16 && HexValue(HexDigit(n % 16)) == n % 16;
      assert (e + rest)[4..] == rest;
    } else {
      assert (e + rest)[1..] == rest;
    }
  }

  /** The escapes lose nothing: reading a `repr` body back gives the text. */
  lemma {:induction false} ReprRoundTrip(s: string, q: char)
    requires q == '\'' || q == '"'
    ensures Unescape(ReprBody(s, q)) == Some(s)
    decreases |s|
  {
    if |s| > 0 {
      ReprCharUnescape(s[0], q, ReprBody(s[1..], q));
      ReprRoundTrip(s[1..], q);
      assert [s[0]] + s[1..] == s;
    }
  }

  /** Distinct texts have distinct `repr`s. */
  lemma PyReprInjective(s: string, t: string)
    requires PyRepr(s) == PyRepr(t)
    ensures s == t
  {
    var r := PyRepr(s);
    var q := ReprQuote(s);
    assert ReprBody(s, q) == r[1..|r| - 1];
    assert ReprBody(t, q) == r[1..|r| - 1];
    ReprRoundTrip(s, q);
    ReprRoundTrip(t, q);
  }

  /** A text of printable characters without a single quote or a backslash is written as
      it is, between single quotes. */
  lemma {:induction false} PlainRepr(s: string)
    requires forall i :: 0 <= i < |s| ==> s[i] != '\'' && s[i] != '\\' && !NonPrintable(s[i])
    ensures PyRepr(s) == "'" + s + "'"
  {
    PlainBody(s);
  }

  lemma {:induction false} PlainBody(s: string)
    requires forall i :: 0 <= i < |s| ==> s[i] != '\'' && s[i] != '\\' && !NonPrintable(s[i])
    ensures ReprBody(s, '\'') == s
    decreases |s|
  {
    if |s| > 0 {
      PlainBody(s[1..]);
      assert [s[0]] + s[1..] == s;
    }
  }

  /** A single quote switches to double quotes; with both quotes the single one is
      escaped; a backslash is doubled and a newline is written by name. */
  lemma ReprExamples()
    ensures PyRepr("it's") == "\"it's\""
    ensures PyRepr("a'\"") == "'a\\'\"'"
    ensures PyRepr("a\\b") == "'a\\\\b'"
    ensures PyRepr("a\nb") == "'a\\nb'"
  {
    assert "it's"[1..] == "t's" && "t's"[1..] == "'s" && "'s"[1..] == "s" && "s"[1..] == "";
    assert "a'\""[1..] == "'\"" && "'\""[1..] == "\"" && "\""[1..] == "";
    assert "a\\b"[1..] == "\\b" && "\\b"[1..] == "b" && "b"[1..] == "";
    assert "a\nb"[1..] == "\nb" && "\nb"[1..] == "b";
  }
}
