/** Text helpers shared by both hops: the string search, integer parsing and
    header-line formatting that the handlers build on, each with the parser
    that undoes it. Python 2 `str` values are byte strings; they are modelled
    as Dafny `string`s. */
module Wire {

  datatype Option<+T> = None | Some(value: T)

  datatype Result<+T, +E> = Ok(value: T) | Err(error: E)

  /** `s.find(c)`: the index of the first `c` in `s`, or -1 when there is none. */
  function Find(s: string, c: char): (i: int)
    ensures -1 <= i < |s|
    ensures 0 <= i ==> s[i] == c && c !in s[..i]
    ensures i == -1 <==> c !in s
  {
    if s == [] then -1
    else if s[0] == c then 0
    else
      var j := Find(s[1..], c);
      assert s[1..] == s[1..];
      if j == -1 then -1
      else
        assert s[..j + 1] == [s[0]] + s[1..][..j];
        j + 1
  }

  /** A character that cannot occur before the first `c` is found at the join. */
  lemma FindAtJoin(a: string, c: char, b: string)
    requires c !in a
    ensures Find(a + [c] + b, c) == |a|
  {
    var s := a + [c] + b;
    var i := Find(s, c);
    assert s[|a|] == c;
    assert forall k :: 0 <= k < |a| ==> s[k] == a[k];
    assert forall j :: |a| < j <= |s| ==> s[..j][|a|] == c;
  }

  /** `s.rfind(c)`: the index of the last `c` in `s`, or -1 when there is none. */
  function RFind(s: string, c: char): (i: int)
    ensures -1 <= i < |s|
    ensures 0 <= i ==> s[i] == c && c !in s[i + 1..]
    ensures i == -1 <==> c !in s
  {
    if s == [] then -1
    else if s[|s| - 1] == c then |s| - 1
    else
      var init := s[..|s| - 1];
      var j := RFind(init, c);
      assert s == init + [s[|s| - 1]];
      if j >= 0 then
        assert s[j + 1..] == init[j + 1..] + [s[|s| - 1]];
        j
      else
        assert c !in init + [s[|s| - 1]];
        j
  }

  /** The last `c` of `a + b` is the last of `a` when `b` has none. */
  lemma RFindBefore(a: string, c: char, b: string)
    requires c in a && c !in b
    ensures RFind(a + b, c) == RFind(a, c)
  {
    var i, j := RFind(a + b, c), RFind(a, c);
    assert (a + b)[j] == c;
  }

  // ---------------------------------------------------------------------
  // Decimal digits and Python 2's int()

  predicate IsDigit(c: char) { '0' <= c <= '9' }

  /** The characters `str.strip()` / int() treat as whitespace: space and
      tab, line feed, vertical tab, form feed, carriage return. */
  predicate IsSpace(c: char) { c == ' ' || '\t' <= c <= '\r' }

  predicate AllDigits(s: string) { forall i :: 0 <= i < |s| ==> IsDigit(s[i]) }

  function DigitChar(d: nat): (c: char)
    requires d < 10
    ensures IsDigit(c) && (c as int) - ('0' as int) == d
  {
    ('0' as int + d) as char
  }

  /** The value of a string of decimal digits, most significant first. */
  function DigitsValue(s: string): nat
    requires AllDigits(s)
  {
    if s == [] then 0
    else 10 * DigitsValue(s[..|s| - 1]) + ((s[|s| - 1] as int) - ('0' as int))
  }

  /** The shortest decimal spelling of `n`. */
  function Decimal(n: nat): (s: string)
    ensures s != [] && AllDigits(s)
  {
    if n < 10 then [DigitChar(n)] else Decimal(n / 10) + [DigitChar(n % 10)]
  }

  lemma {:induction false} DecimalValue(n: nat)
    ensures DigitsValue(Decimal(n)) == n
  {
    if n >= 10 {
      DecimalValue(n / 10);
      var s := Decimal(n);
      assert s[..|s| - 1] == Decimal(n / 10);
    }
  }

  /** Every character of `s` is whitespace. */
  predicate Spaces(s: string) { forall c :: c in s ==> IsSpace(c) }

  function TrimStart(s: string): (t: string)
    ensures |t| <= |s| && s == s[..|s| - |t|] + t && Spaces(s[..|s| - |t|])
    ensures t != [] ==> !IsSpace(t[0])
  {
    if s != [] && IsSpace(s[0]) then TrimStart(s[1..]) else s
  }

  function TrimEnd(s: string): (t: string)
    ensures |t| <= |s| && s == t + s[|t|..] && Spaces(s[|t|..])
    ensures t != [] ==> !IsSpace(t[|t| - 1])
  {
    if s != [] && IsSpace(s[|s| - 1]) then
      var init := s[..|s| - 1];
      var t := TrimEnd(init);
      assert s[|t|..] == init[|t|..] + [s[|s| - 1]];
      t
    else s
  }

  /** Python 2 `int(s)` on a byte string, base 10: surrounding whitespace is
      ignored, one optional sign may be followed by whitespace, and at least
      one digit must follow; anything else raises ValueError (None). */
  function ParseInt(s: string): Option<int>
  {
    ParseTrimmed(TrimEnd(TrimStart(s)))
  }

  /** int() on the text between the surrounding whitespace. */
  function ParseTrimmed(t: string): Option<int>
  {
    if t == [] then None
    else if t[0] == '+' || t[0] == '-' then
      var d := TrimStart(t[1..]);
      if d != [] && AllDigits(d) then
        var v: int := DigitsValue(d);
        Some(if t[0] == '-' then -v else v)
      else None
    else if AllDigits(t) then Some(DigitsValue(t))
    else None
  }

  /** `s` up to its first NUL byte: where C's string functions stop. */
  function UpToNul(s: string): (p: string)
    ensures p <= s && '\0' !in p
    ensures '\0' !in s ==> p == s
    ensures p != s ==> s[|p|] == '\0'
  {
    var i := Find(s, '\0');
    if i < 0 then s else s[..i]
  }

  /** The text of the ValueError that int() raises for `s`. The parser reads
      `s` as a C string, so it stops at a NUL byte: when a valid number
      precedes the NUL the complaint is about the NUL, otherwise the message
      quotes, with `repr`, at most the first 200 bytes of what precedes it
      once its leading whitespace is skipped. */
  function IntError(s: string): string
  {
    var p := UpToNul(s);
    if p != s && ParseInt(p).Some? then "null byte in argument for int()"
    else LiteralError(TrimStart(p))
  }

  /** The complaint about text `q`, quoting at most its first 200 bytes. */
  function LiteralError(q: string): string
  {
    "invalid literal for int() with base 10: " + Repr(if |q| <= 200 then q else q[..200])
  }

  // ---------------------------------------------------------------------
  // Python 2's repr() of a byte string

  /** The quote `repr` puts around `s`: a double quote when `s` holds a single
      quote and no double quote, a single quote otherwise. */
  function ReprQuote(s: string): char
  {
    if '\'' in s && '"' !in s then '"' else '\''
  }

  /** A lower-case hexadecimal digit. */
  function HexDigit(d: nat): char
    requires d < 16
  {
    if d < 10 then ('0' as int + d) as char else ('a' as int + d - 10) as char
  }

  /** How `repr` writes byte `c` inside quotes `q`: the quote and the
      backslash are escaped, tab, line feed and carriage return get their
      letter escapes, other bytes outside printable ASCII are written `\xhh`. */
  function Escape(c: char, q: char): (r: string)
    ensures r != []
  {
    if c == q || c == '\\' then ['\\', c]
    else if c == '\t' then "\\t"
    else if c == '\n' then "\\n"
    else if c == '\r' then "\\r"
    else if c < ' ' || c as int >= 0x7f then ['\\', 'x', HexDigit((c as int / 16) % 16), HexDigit(c as int % 16)]
    else [c]
  }

  /** Every byte of `s`, escaped for quotes `q`. */
  function EscapeAll(s: string, q: char): (r: string)
    ensures |r| >= |s|
  {
    if s == [] then "" else Escape(s[0], q) + EscapeAll(s[1..], q)
  }

  /** `repr(s)` for a byte string `s`. */
  function Repr(s: string): (r: string)
    ensures |r| >= |s| + 2 && r[0] == ReprQuote(s) && r[|r| - 1] == ReprQuote(s)
  {
    [ReprQuote(s)] + EscapeAll(s, ReprQuote(s)) + [ReprQuote(s)]
  }

  /** Printable ASCII other than the backslash. */
  predicate Plain(c: char) { ' ' <= c && c as int < 0x7f && c != '\\' }

  /** Text of printable bytes, without a backslash and without both kinds of
      quote, is quoted as it is. */
  lemma ReprPlain(s: string)
    requires forall i :: 0 <= i < |s| ==> Plain(s[i])
    requires !('\'' in s && '"' in s)
    ensures Repr(s) == [ReprQuote(s)] + s + [ReprQuote(s)]
  {
    EscapeVerbatim(s, ReprQuote(s));
  }

  lemma {:induction false} EscapeVerbatim(s: string, q: char)
    requires forall i :: 0 <= i < |s| ==> Plain(s[i]) && s[i] != q
    ensures EscapeAll(s, q) == s
  {
    if s != [] {
      EscapeVerbatim(s[1..], q);
    }
  }

  /** Only the first 200 bytes of a long text reach the message (leading
      whitespace is skipped first, see `IntErrorSkipsSpaces`). */
  lemma IntErrorCapped(s: string)
    requires '\0' !in s && |s| > 200 && !IsSpace(s[0])
    ensures IntError(s) == IntError(s[..200])
  {
    StrippedError(s);
    LiteralCapped(s);
    StrippedError(s[..200]);
  }

  lemma LiteralCapped(t: string)
    requires |t| > 200
    ensures LiteralError(t) == LiteralError(t[..200])
  {
  }

  /** Text without NUL and without leading whitespace is quoted as it is. */
  lemma StrippedError(q: string)
    requires '\0' !in q && (q == [] || !IsSpace(q[0]))
    ensures IntError(q) == LiteralError(q)
  {
    NoNulError(q);
  }

  /** Without a NUL byte the message always quotes the stripped text. */
  lemma NoNulError(s: string)
    requires '\0' !in s
    ensures IntError(s) == LiteralError(TrimStart(s))
  {
  }

  /** Leading whitespace never shows in the message: `int(" x")` and
      `int("x")` fail with the same text. */
  lemma IntErrorSkipsSpaces(w: string, s: string)
    requires Spaces(w)
    ensures IntError(w + s) == IntError(s)
  {
    var p := UpToNul(s);
    assert '\0' !in w by { assert !IsSpace('\0'); }
    NulAfter(w, s);
    TrimSpaces(w, p);
    SameTrim(w + p, p);
    assert (w + p != w + s) == (p != s) by {
      if w + p == w + s { assert p == (w + p)[|w|..] == (w + s)[|w|..] == s; }
    }
    SameError(w + s, s);
  }

  /** int() treats two texts alike once their leading whitespace is gone. */
  lemma SameTrim(s: string, t: string)
    requires TrimStart(s) == TrimStart(t)
    ensures ParseInt(s) == ParseInt(t)
  {
  }

  /** The message depends only on the text before the NUL, stripped. */
  lemma SameError(s: string, t: string)
    requires (UpToNul(s) != s) == (UpToNul(t) != t)
    requires ParseInt(UpToNul(s)) == ParseInt(UpToNul(t))
    requires TrimStart(UpToNul(s)) == TrimStart(UpToNul(t))
    ensures IntError(s) == IntError(t)
  {
    var p, q := UpToNul(s), UpToNul(t);
    if p != s && ParseInt(p).Some? {
      assert IntError(s) == IntError(t) == "null byte in argument for int()";
    } else {
      assert IntError(s) == LiteralError(TrimStart(p));
      assert IntError(t) == LiteralError(TrimStart(q));
    }
  }

  /** A prefix without NUL is kept whole by `UpToNul`. */
  lemma NulAfter(w: string, s: string)
    requires '\0' !in w
    ensures UpToNul(w + s) == w + UpToNul(s)
  {
    var i := Find(s, '\0');
    if i < 0 {
      assert '\0' !in w + s;
    } else {
      var a, b := s[..i], s[i + 1..];
      assert s == a + ['\0'] + b;
      NulAt(w, a, b);
    }
  }

  /** The first NUL of `w + a + NUL + b` ends `w + a`. */
  lemma NulAt(w: string, a: string, b: string)
    requires '\0' !in w && '\0' !in a
    ensures UpToNul(w + (a + ['\0'] + b)) == w + a
  {
    var x := (w + a) + ['\0'] + b;
    assert w + (a + ['\0'] + b) == x;
    FindAtJoin(w + a, '\0', b);
    assert x[..|w + a|] == w + a;
  }

  /** Stripping looks past any whitespace prefix. */
  lemma {:induction false} TrimSpaces(w: string, s: string)
    requires Spaces(w)
    ensures TrimStart(w + s) == TrimStart(s)
  {
    if w != [] {
      assert w[0] in w;
      assert (w + s)[0] == w[0] && (w + s)[1..] == w[1..] + s;
      assert Spaces(w[1..]) by {
        forall c | c in w[1..] ensures IsSpace(c) { assert c in w; }
      }
      TrimSpaces(w[1..], s);
    } else {
      assert w + s == s;
    }
  }

  /** int() reads back every decimal spelling it could be given. */
  lemma ParseDecimal(n: nat)
    ensures ParseInt(Decimal(n)) == Some(n)
  {
    var s := Decimal(n);
    assert TrimStart(s) == s by {
      assert !IsSpace(s[0]);
    }
    assert TrimEnd(s) == s by {
      assert !IsSpace(s[|s| - 1]);
    }
    DecimalValue(n);
  }

  /** Every character of `s` is a digit, whitespace or a sign. */
  predicate Numeric(s: string)
  {
    forall c :: c in s ==> IsDigit(c) || IsSpace(c) || c == '+' || c == '-'
  }

  /** Stripping whitespace keeps every other character. */
  lemma TrimKeeps(s: string)
    ensures forall c :: c in TrimStart(s) ==> c in s
    ensures forall c :: c in s ==> c in TrimStart(s) || IsSpace(c)
    ensures forall c :: c in TrimEnd(s) ==> c in s
    ensures forall c :: c in s ==> c in TrimEnd(s) || IsSpace(c)
  {
    var u, t := TrimStart(s), TrimEnd(s);
    assert s == s[..|s| - |u|] + u;
    assert s == t + s[|t|..];
  }

  /** What int() accepts once the surrounding whitespace is gone. */
  lemma StrippedAlphabet(t: string)
    requires t != []
    requires (t[0] == '+' || t[0] == '-') ==> var d := TrimStart(t[1..]); d != [] && AllDigits(d)
    requires !(t[0] == '+' || t[0] == '-') ==> AllDigits(t)
    ensures Numeric(t)
    ensures exists c :: c in t && IsDigit(c)
  {
    if t[0] == '+' || t[0] == '-' {
      SignedAlphabet(t);
    } else {
      DigitsNumeric(t);
      assert t[0] in t;
    }
  }

  /** A sign, then whitespace, then digits. */
  lemma SignedAlphabet(t: string)
    requires t != [] && (t[0] == '+' || t[0] == '-')
    requires TrimStart(t[1..]) != [] && AllDigits(TrimStart(t[1..]))
    ensures Numeric(t)
    ensures exists c :: c in t && IsDigit(c)
  {
    var r := t[1..];
    var d := TrimStart(r);
    var g := |r| - |d|;
    assert Spaces(r[..g]) && r == r[..g] + d;
    forall i | 0 <= i < |t| ensures IsDigit(t[i]) || IsSpace(t[i]) || t[i] == '+' || t[i] == '-' {
      if 0 < i <= g {
        assert t[i] == r[..g][i - 1];
      } else if g < i {
        assert t[i] == d[i - 1 - g];
      }
    }
    forall c | c in t ensures IsDigit(c) || IsSpace(c) || c == '+' || c == '-' {
      var i :| 0 <= i < |t| && t[i] == c;
    }
    assert t[g + 1] == d[0];
  }

  lemma DigitsNumeric(d: string)
    requires AllDigits(d)
    ensures Numeric(d)
  {
    forall c | c in d ensures IsDigit(c) {
      var i :| 0 <= i < |d| && d[i] == c;
    }
  }

  /** int() accepts only whitespace, signs and digits, and needs a digit:
      any other character makes it raise. */
  lemma ParseIntAlphabet(s: string)
    requires ParseInt(s).Some?
    ensures Numeric(s)
    ensures exists c :: c in s && IsDigit(c)
  {
    var u := TrimStart(s);
    var t := TrimEnd(u);
    TrimKeeps(s);
    TrimKeeps(u);
    StrippedAlphabet(t);
    var c :| c in t && IsDigit(c);
    assert c in s;
  }

  // ---------------------------------------------------------------------
  // CRLF-terminated lines and "Name: value" header lines

  /** One header line, `"%s: %s\r\n" % (name, value)`. */
  function HeaderLine(name: string, value: string): string
  {
    name + ": " + value + "\r\n"
  }

  /** The header lines for `items`, in order. */
  function FormatHeaders(items: seq<(string, string)>): string
  {
    if items == [] then "" else HeaderLine(items[0].0, items[0].1) + FormatHeaders(items[1..])
  }

  /** Writing one more item appends its line to the block. */
  lemma {:induction false} FormatHeadersSnoc(items: seq<(string, string)>, item: (string, string))
    ensures FormatHeaders(items + [item]) == FormatHeaders(items) + HeaderLine(item.0, item.1)
  {
    if items == [] {
      assert items + [item] == [item];
    } else {
      assert (items + [item])[1..] == items[1..] + [item];
      FormatHeadersSnoc(items[1..], item);
    }
  }

  /** Header items that read back unambiguously: no `:` or CR in a name, no CR in a value. */
  predicate Clean(items: seq<(string, string)>)
  {
    forall i :: 0 <= i < |items| ==> ':' !in items[i].0 && '\r' !in items[i].0 && '\r' !in items[i].1
  }

  /** Splits off the first CRLF-terminated line. */
  function ReadLine(s: string): (r: Option<(string, string)>)
    ensures r.Some? ==> '\r' !in r.value.0 && s == r.value.0 + "\r\n" + r.value.1
    ensures r.None? ==> forall a, b :: '\r' !in a ==> s != a + "\r\n" + b
  {
    var e := Find(s, '\r');
    if e < 0 || e + 1 == |s| || s[e + 1] != '\n' then
      assert forall a, b :: '\r' !in a && s == a + "\r\n" + b ==> Find(s, '\r') == |a| by {
        forall a, b | '\r' !in a && s == a + "\r\n" + b ensures Find(s, '\r') == |a| {
          FindAtJoin(a, '\r', "\n" + b);
          assert s == a + ['\r'] + ("\n" + b);
        }
      }
      None
    else
      assert s == s[..e] + "\r\n" + s[e + 2..];
      Some((s[..e], s[e + 2..]))
  }

  /** Splits `"name: value"` at the first colon, which must be followed by a space. */
  function ParseHeaderLine(line: string): Option<(string, string)>
  {
    var c := Find(line, ':');
    if c < 0 || c + 1 == |line| || line[c + 1] != ' ' then None
    else Some((line[..c], line[c + 2..]))
  }

  /** Reads header lines up to the blank line; returns them and what follows it. */
  function ParseHeaders(s: string): Option<(seq<(string, string)>, string)>
    decreases |s|
  {
    match ReadLine(s)
    case None => None
    case Some((line, rest)) =>
      if line == [] then Some(([], rest))
      else
        match ParseHeaderLine(line)
        case None => None
        case Some(item) =>
          match ParseHeaders(rest)
          case None => None
          case Some((items, body)) => Some(([item] + items, body))
  }

  /** Reads a start line, the header lines and the blank line; returns the
      start line, the headers and the body. */
  function ParseHead(s: string): Option<(string, seq<(string, string)>, string)>
  {
    match ReadLine(s)
    case None => None
    case Some((start, rest)) =>
      match ParseHeaders(rest)
      case None => None
      case Some((items, body)) => Some((start, items, body))
  }

  lemma ReadLineOf(line: string, rest: string)
    requires '\r' !in line
    ensures ReadLine(line + "\r\n" + rest) == Some((line, rest))
  {
    var s := line + "\r\n" + rest;
    assert s == line + ['\r'] + ("\n" + rest);
    FindAtJoin(line, '\r', "\n" + rest);
    assert s[..|line|] == line;
    assert s[|line| + 2..] == rest;
  }

  lemma ParseHeaderLineOf(name: string, value: string)
    requires ':' !in name
    ensures ParseHeaderLine(name + ": " + value) == Some((name, value))
  {
    var line := name + ": " + value;
    assert line == name + [':'] + (" " + value);
    FindAtJoin(name, ':', " " + value);
    assert line[..|name|] == name;
    assert line[|name| + 2..] == value;
  }

  /** The header block written by FormatHeaders and a blank line reads back
      as the same items, in the same order, followed by the untouched body. */
  lemma {:induction false} HeadersRoundTrip(items: seq<(string, string)>, body: string)
    requires Clean(items)
    ensures ParseHeaders(FormatHeaders(items) + "\r\n" + body) == Some((items, body))
  {
    if items == [] {
      assert FormatHeaders(items) + "\r\n" + body == [] + "\r\n" + body;
      ReadLineOf([], body);
    } else {
      var name, value := items[0].0, items[0].1;
      var tail := FormatHeaders(items[1..]) + "\r\n" + body;
      var line := name + ": " + value;
      assert FormatHeaders(items) + "\r\n" + body == line + "\r\n" + tail;
      ReadLineOf(line, tail);
      ParseHeaderLineOf(name, value);
      CleanTail(items);
      HeadersRoundTrip(items[1..], body);
      assert [items[0]] + items[1..] == items;
    }
  }

  lemma CleanTail(items: seq<(string, string)>)
    requires Clean(items) && items != []
    ensures Clean(items[1..])
  {
    forall i | 0 <= i < |items[1..]|
      ensures ':' !in items[1..][i].0 && '\r' !in items[1..][i].0 && '\r' !in items[1..][i].1
    {
      assert items[1..][i] == items[i + 1];
    }
  }

  /** A full message head reads back as its start line, headers and body. */
  lemma HeadRoundTrip(start: string, items: seq<(string, string)>, body: string)
    requires '\r' !in start
    requires Clean(items)
    ensures ParseHead(start + "\r\n" + FormatHeaders(items) + "\r\n" + body) == Some((start, items, body))
  {
    var s := start + "\r\n" + FormatHeaders(items) + "\r\n" + body;
    var rest := FormatHeaders(items) + "\r\n" + body;
    assert s == start + "\r\n" + rest;
    assert ReadLine(s) == Some((start, rest)) by {
      ReadLineOf(start, rest);
    }
    assert ParseHeaders(rest) == Some((items, body)) by {
      HeadersRoundTrip(items, body);
    }
  }
}
