/** The few string operations of the Go standard library the core relies on:
    `strings.Split`, `strings.Join`, `strings.ReplaceAll`, `strings.Replace`
    with an empty replacement, hexadecimal `strconv.ParseUint` and decimal
    `fmt` formatting. */
module Text {
  import opened Wrappers

  /** Number of occurrences of `c` in `s`. */
  function Count(s: string, c: char): nat
  {
    if s == [] then 0 else (if s[0] == c then 1 else 0) + Count(s[1..], c)
  }

  lemma {:induction false} CountAppend(a: string, b: string, c: char)
    ensures Count(a + b, c) == Count(a, c) + Count(b, c)
    decreases |a|
  {
    if a == [] {
      assert a + b == b;
    } else {
      assert (a + b)[1..] == a[1..] + b;
      CountAppend(a[1..], b, c);
    }
  }

  lemma {:induction false} CountZero(s: string, c: char)
    ensures Count(s, c) == 0 <==> c !in s
    decreases |s|
  {
    if s != [] {
      CountZero(s[1..], c);
      assert s == [s[0]] + s[1..];
    }
  }

  /** `strings.Split(s, sep)` for a one-character separator: the pieces
      between separators, including empty ones; never an empty list. */
  function Split(s: string, sep: char): (parts: seq<string>)
    ensures |parts| >= 1
    decreases |s|
  {
    if s == [] then [""]
    else
      var rest := Split(s[1..], sep);
      if s[0] == sep then [""] + rest
      else [[s[0]] + rest[0]] + rest[1..]
  }

  /** `strings.Join(parts, sep)`. */
  function Join(parts: seq<string>, sep: char): string
    requires |parts| >= 1
    decreases |parts|
  {
    if |parts| == 1 then parts[0] else parts[0] + [sep] + Join(parts[1..], sep)
  }

  /** Every piece of a split is free of the separator, and there is one
      piece more than there are separators. */
  lemma {:induction false} SplitShape(s: string, sep: char)
    ensures |Split(s, sep)| == Count(s, sep) + 1
    ensures forall p | p in Split(s, sep) :: sep !in p
    decreases |s|
  {
    if s != [] {
      SplitShape(s[1..], sep);
    }
  }

  /** Joining the pieces of a split gives back the string. */
  lemma {:induction false} JoinSplit(s: string, sep: char)
    ensures Join(Split(s, sep), sep) == s
    decreases |s|
  {
    if s != [] {
      var rest := Split(s[1..], sep);
      JoinSplit(s[1..], sep);
      if s[0] == sep {
        assert ([""] + rest)[1..] == rest;
      } else {
        var parts := [[s[0]] + rest[0]] + rest[1..];
        if |rest| == 1 {
          assert Join(parts, sep) == [s[0]] + rest[0];
        } else {
          assert parts[1..] == rest[1..];
          assert Join(rest, sep) == rest[0] + [sep] + Join(rest[1..], sep);
        }
      }
    }
  }

  /** A separator-free prefix joins the first piece of what follows it. */
  lemma {:induction false} SplitPrefix(p: string, t: string, sep: char)
    requires sep !in p
    ensures Split(p + t, sep) == [p + Split(t, sep)[0]] + Split(t, sep)[1..]
    decreases |p|
  {
    if p == [] {
      assert p + t == t;
      assert p + Split(t, sep)[0] == Split(t, sep)[0];
      assert [Split(t, sep)[0]] + Split(t, sep)[1..] == Split(t, sep);
    } else {
      assert (p + t)[1..] == p[1..] + t;
      assert sep !in p[1..];
      SplitPrefix(p[1..], t, sep);
      assert [p[0]] + (p[1..] + Split(t, sep)[0]) == p + Split(t, sep)[0];
    }
  }

  /** Splitting a join of separator-free pieces gives back the pieces. */
  lemma {:induction false} SplitJoin(parts: seq<string>, sep: char)
    requires |parts| >= 1
    requires forall p | p in parts :: sep !in p
    ensures Split(Join(parts, sep), sep) == parts
    decreases |parts|
  {
    if |parts| == 1 {
      SplitOfFree(parts[0], sep);
    } else {
      var rest := parts[1..];
      var tail := Join(rest, sep);
      assert forall p | p in rest :: p in parts;
      SplitJoin(rest, sep);
      assert ([sep] + tail)[1..] == tail;
      assert Split([sep] + tail, sep) == [""] + rest;
      assert Join(parts, sep) == parts[0] + ([sep] + tail);
      SplitPrefix(parts[0], [sep] + tail, sep);
      assert parts[0] + "" == parts[0];
      assert [parts[0]] + rest == parts;
    }
  }

  /** A separator-free string splits into itself alone. */
  lemma {:induction false} SplitOfFree(s: string, sep: char)
    requires sep !in s
    ensures Split(s, sep) == [s]
    decreases |s|
  {
    if s != [] {
      assert sep !in s[1..];
      SplitOfFree(s[1..], sep);
      assert [s[0]] + s[1..] == s;
    }
  }

  /** The three-part topic case used by the remote-write publisher. */
  lemma SplitThree(a: string, b: string, c: string, sep: char)
    requires sep !in a && sep !in b && sep !in c
    ensures Split(a + [sep] + b + [sep] + c, sep) == [a, b, c]
  {
    var parts := [a, b, c];
    assert Join(parts, sep) == a + [sep] + b + [sep] + c by {
      assert parts[1..] == [b, c];
      assert [b, c][1..] == [c];
      assert Join([c], sep) == c;
      assert Join([b, c], sep) == b + [sep] + c;
      assert Join(parts, sep) == a + [sep] + (b + [sep] + c);
    }
    SplitJoin(parts, sep);
  }

  lemma SplitTwo(a: string, b: string, sep: char)
    requires sep !in a && sep !in b
    ensures Split(a + [sep] + b, sep) == [a, b]
  {
    var parts := [a, b];
    assert Join(parts, sep) == a + [sep] + b by {
      assert parts[1..] == [b];
    }
    SplitJoin(parts, sep);
  }

  /** `strings.ReplaceAll(s, from, to)` for one-character patterns. */
  function ReplaceChar(s: string, from: char, to: char): (r: string)
    ensures |r| == |s|
    ensures forall i | 0 <= i < |s| :: r[i] == if s[i] == from then to else s[i]
  {
    seq(|s|, i requires 0 <= i < |s| => if s[i] == from then to else s[i])
  }

  /** `strings.Replace(s, pat, "", -1)` for a two-character pattern:
      occurrences are removed left to right without overlapping. */
  function RemoveAll(s: string, pat: string): (r: string)
    requires |pat| == 2
    ensures |r| <= |s|
    decreases |s|
  {
    if |s| < 2 then s
    else if s[..2] == pat then RemoveAll(s[2..], pat)
    else [s[0]] + RemoveAll(s[1..], pat)
  }

  /** A string that lacks the pattern's first character loses nothing. */
  lemma {:induction false} RemoveAllAbsent(s: string, pat: string)
    requires |pat| == 2 && pat[0] !in s
    ensures RemoveAll(s, pat) == s
    decreases |s|
  {
    if |s| >= 2 {
      assert s[0] != pat[0];
      assert pat[0] !in s[1..];
      RemoveAllAbsent(s[1..], pat);
      assert [s[0]] + s[1..] == s;
    }
  }

  /** Nor does a string that lacks its second character. */
  lemma {:induction false} RemoveAllLacking(s: string, pat: string)
    requires |pat| == 2 && pat[1] !in s
    ensures RemoveAll(s, pat) == s
    decreases |s|
  {
    if |s| >= 2 {
      assert s[1] != pat[1];
      assert pat[1] !in s[1..];
      RemoveAllLacking(s[1..], pat);
      assert [s[0]] + s[1..] == s;
    }
  }

  // ---------------------------------------------------------------------
  // Decimal and hexadecimal numerals

  predicate IsDigit(c: char) { '0' <= c <= '9' }

  function DigitChar(d: nat): (c: char)
    requires d < 10
    ensures IsDigit(c) && c as int - '0' as int == d
  {
    ('0' as int + d) as char
  }

  /** The shortest decimal numeral of `n`, as `%d` prints a non-negative integer. */
  function Decimal(n: nat): (s: string)
    ensures |s| >= 1 && forall c | c in s :: IsDigit(c)
    ensures n < 10 <==> |s| == 1
    decreases n
  {
    if n < 10 then [DigitChar(n)] else Decimal(n / 10) + [DigitChar(n % 10)]
  }

  /** The value a string of decimal digits denotes. */
  function DecimalValue(s: string): nat
    requires forall c | c in s :: IsDigit(c)
    decreases |s|
  {
    if s == [] then 0
    else
      assert s[|s| - 1] in s;
      assert IsDigit(s[|s| - 1]);
      DecimalValue(s[..|s| - 1]) * 10 + (s[|s| - 1] as int - '0' as int)
  }

  lemma {:induction false} DecimalRoundTrip(n: nat)
    ensures DecimalValue(Decimal(n)) == n
    decreases n
  {
    if n >= 10 {
      DecimalRoundTrip(n / 10);
      var s := Decimal(n);
      assert s[..|s| - 1] == Decimal(n / 10);
    }
  }

  /** `%02d`: the decimal numeral, left-padded with zeros to two characters. */
  function Pad2(n: nat): (s: string)
    ensures |s| >= 2 && forall c | c in s :: IsDigit(c)
    ensures DecimalValue(s) == n
    ensures n < 100 ==> |s| == 2
  {
    DecimalRoundTrip(n);
    if n < 10 then
      var s := ['0', DigitChar(n)];
      assert s[..1] == ['0'];
      s
    else Decimal(n)
  }

  /** The integer nearest `x`, a tie going to the even neighbour. */
  function RoundHalfEven(x: real): (n: int)
    ensures n as real - 0.5 <= x <= n as real + 0.5
    ensures (x == n as real - 0.5 || x == n as real + 0.5) ==> n % 2 == 0
  {
    var f := x.Floor;
    var d := x - f as real;
    if d < 0.5 then f else if d > 0.5 then f + 1 else if f % 2 == 0 then f else f + 1
  }

  /** `%.2f`: a minus sign for a negative argument, the whole part in
      decimal, a point, and the two digits of the hundredths, rounded to
      nearest with ties to even. */
  function Fixed2(x: real): (s: string)
    ensures |s| >= 4 && s[|s| - 3] == '.'
    ensures x < 0.0 <==> s[0] == '-'
  {
    var t := Hundredths(RoundedHundredths(x));
    if x < 0.0 then "-" + t else t
  }

  /** The count of hundredths in the magnitude of `x`, rounded half to even. */
  function RoundedHundredths(x: real): (h: nat)
    ensures h as real - 0.5 <= Magnitude(x) * 100.0 <= h as real + 0.5
  {
    RoundHalfEven(Magnitude(x) * 100.0)
  }

  /** The text of `%.2f` after its sign reads, without the point, as the
      value's hundredths to within half a hundredth. */
  lemma Fixed2Reads(x: real)
    ensures var d := DropPoint(Unsigned(Fixed2(x)));
      (forall c | c in d :: IsDigit(c)) && -0.5 <= DecimalValue(d) as real - Magnitude(x) * 100.0 <= 0.5
  {
    var h := RoundedHundredths(x);
    var t := Hundredths(h);
    assert Unsigned(Fixed2(x)) == t by {
      if x < 0.0 {
        assert ("-" + t)[1..] == t;
      }
    }
  }

  /** A text without its leading minus sign, if it has one. */
  function Unsigned(s: string): (u: string)
    ensures |u| >= |s| - 1 && (|s| > 0 && s[0] == '-' ==> u == s[1..])
  {
    if |s| > 0 && s[0] == '-' then s[1..] else s
  }

  /** A text of at least three characters without its third-last, the decimal point. */
  function DropPoint(t: string): (d: string)
    requires |t| >= 3
    ensures |d| == |t| - 1 && d[..|t| - 3] == t[..|t| - 3] && d[|t| - 3..] == t[|t| - 2..]
  {
    t[..|t| - 3] + t[|t| - 2..]
  }

  /** The absolute value, which `%.2f` writes after its sign. */
  function Magnitude(x: real): (m: real)
    ensures m >= 0.0 && (m == x || m == -x)
  {
    if x < 0.0 then -x else x
  }

  /** A count of hundredths written with the point before its last two digits. */
  function Hundredths(h: nat): (t: string)
    ensures |t| >= 4 && t[|t| - 3] == '.' && t[0] != '-'
    ensures (forall c | c in DropPoint(t) :: IsDigit(c)) && DecimalValue(DropPoint(t)) == h
  {
    var w := Decimal(h / 100);
    var f := Pad2(h % 100);
    var t := w + "." + f;
    assert DropPoint(t) == w + f;
    assert t[0] == w[0] && w[0] in w;
    DecimalAppend2(w, f);
    DecimalRoundTrip(h / 100);
    t
  }

  /** Two more digits multiply the value of a numeral by a hundred. */
  lemma DecimalAppend2(a: string, b: string)
    requires (forall c | c in a :: IsDigit(c)) && (forall c | c in b :: IsDigit(c)) && |b| == 2
    ensures forall c | c in a + b :: IsDigit(c)
    ensures DecimalValue(a + b) == DecimalValue(a) * 100 + DecimalValue(b)
  {
    var ab := a + b;
    var a1 := a + b[..1];
    assert b[0] in b && b[1] in b;
    assert ab[..|ab| - 1] == a1 && ab[|ab| - 1] == b[1];
    assert a1[..|a1| - 1] == a && a1[|a1| - 1] == b[0];
    assert forall c | c in a1 :: c in a || c == b[0];
    var d0 := b[0] as int - '0' as int;
    var d1 := b[1] as int - '0' as int;
    assert DecimalValue(ab) == DecimalValue(a1) * 10 + d1;
    assert DecimalValue(a1) == DecimalValue(a) * 10 + d0;
    assert b[..1][..0] == [] && b[..|b| - 1] == b[..1];
    assert DecimalValue(b[..1]) == d0;
    assert DecimalValue(b) == d0 * 10 + d1;
  }

  function HexDigitValue(c: char): (v: int)
    ensures -1 <= v < 16
  {
    if '0' <= c <= '9' then c as int - '0' as int
    else if 'a' <= c <= 'f' then c as int - 'a' as int + 10
    else if 'A' <= c <= 'F' then c as int - 'A' as int + 10
    else -1
  }

  predicate IsHexDigit(c: char) { HexDigitValue(c) >= 0 }

  /** The value a string of hexadecimal digits denotes. */
  function HexValue(s: string): nat
    requires forall c | c in s :: IsHexDigit(c)
    decreases |s|
  {
    if s == [] then 0
    else
      assert s[|s| - 1] in s;
      assert IsHexDigit(s[|s| - 1]);
      HexValue(s[..|s| - 1]) * 16 + HexDigitValue(s[|s| - 1])
  }

  /** One character as `strconv.Quote` writes it: the quote and the
      backslash behind a backslash, the seven C escapes, other ASCII
      control characters as `\x` and two hexadecimal digits. */
  function QuoteChar(c: char): (q: string)
    ensures |q| >= 1
    ensures Plain(c) ==> q == [c]
  {
    var n := c as int;
    if c == '"' then ['\\', '"']
    else if c == '\\' then ['\\', '\\']
    else if n == 7 then ['\\', 'a']
    else if n == 8 then ['\\', 'b']
    else if n == 9 then ['\\', 't']
    else if n == 10 then ['\\', 'n']
    else if n == 11 then ['\\', 'v']
    else if n == 12 then ['\\', 'f']
    else if n == 13 then ['\\', 'r']
    else if n < 0x20 || n == 0x7F then ['\\', 'x', HexChar(n / 16), HexChar(n % 16)]
    else [c]
  }

  /** A character `strconv.Quote` writes as itself. */
  predicate Plain(c: char)
  {
    0x20 <= c as int < 0x7F && c != '"' && c != '\\'
  }

  function QuoteBody(s: string): string
    decreases |s|
  {
    if s == [] then [] else QuoteChar(s[0]) + QuoteBody(s[1..])
  }

  /** `strconv.Quote(s)`: the string between double quotes, escaped. */
  function Quote(s: string): string
  {
    "\"" + QuoteBody(s) + "\""
  }

  /** A string of plain characters is quoted as it stands. */
  lemma {:induction false} QuotePlain(s: string)
    requires forall c | c in s :: Plain(c)
    ensures Quote(s) == "\"" + s + "\""
    ensures QuoteBody(s) == s
    decreases |s|
  {
    if s != [] {
      assert s[0] in s && forall c | c in s[1..] :: c in s;
      QuotePlain(s[1..]);
      assert QuoteBody(s) == [s[0]] + s[1..];
      assert [s[0]] + s[1..] == s;
    }
  }

  /** The text of the `*strconv.NumError` that `strconv.ParseUint` returns. */
  function NumError(s: string, reason: string): string
  {
    "strconv.ParseUint: parsing " + Quote(s) + ": " + reason
  }

  const InvalidSyntax: string := "invalid syntax"
  const OutOfRange: string := "value out of range"

  /** `strconv.ParseUint(s, 16, 16)`: the digits are taken left to right,
      with no sign or prefix; the first character that is not a
      hexadecimal digit is a syntax error, and the value is a range error
      as soon as it passes 0xFFFF, so whichever comes first decides. */
  function ParseHex16(s: string): (r: Result<int>)
    ensures r.Ok? <==> (s != [] && (forall c | c in s :: IsHexDigit(c)) && HexValue(s) < 0x1_0000)
    ensures r.Ok? ==> 0 <= r.value < 0x1_0000 && r.value == HexValue(s)
    ensures r.Err? ==> r.error == NumError(s, InvalidSyntax) || r.error == NumError(s, OutOfRange)
  {
    if s == [] then Err(NumError(s, InvalidSyntax)) else ScanHex(s, 0)
  }

  /** The scan of `ParseHex16` from position `i`, the digits before it
      read and within range. */
  function ScanHex(s: string, i: nat): (r: Result<int>)
    requires i <= |s| && (forall c | c in s[..i] :: IsHexDigit(c)) && HexValue(s[..i]) < 0x1_0000
    ensures r.Ok? <==> ((forall c | c in s :: IsHexDigit(c)) && HexValue(s) < 0x1_0000)
    ensures r.Ok? ==> r.value == HexValue(s)
    ensures r.Err? ==> r.error == NumError(s, InvalidSyntax) || r.error == NumError(s, OutOfRange)
    decreases |s| - i
  {
    if i == |s| then
      assert s[..i] == s;
      Ok(HexValue(s))
    else if !IsHexDigit(s[i]) then
      Err(NumError(s, InvalidSyntax))
    else
      assert s[..i + 1] == s[..i] + [s[i]];
      if HexValue(s[..i + 1]) >= 0x1_0000 then
        HexPrefixBound(s, i + 1);
        Err(NumError(s, OutOfRange))
      else ScanHex(s, i + 1)
  }

  /** A prefix of a hexadecimal numeral never denotes more than the numeral. */
  lemma {:induction false} HexPrefixGrows(s: string, i: nat)
    requires i <= |s| && forall c | c in s :: IsHexDigit(c)
    ensures forall c | c in s[..i] :: IsHexDigit(c)
    ensures HexValue(s[..i]) <= HexValue(s)
    decreases |s| - i
  {
    if i < |s| {
      var t := s[..|s| - 1];
      assert forall c | c in t :: c in s;
      HexPrefixGrows(t, i);
      assert t[..i] == s[..i];
      assert HexValue(t) <= HexValue(s);
    } else {
      assert s[..i] == s;
    }
  }

  /** The bound a prefix passes is passed by the whole string, when it is
      all digits. */
  lemma HexPrefixBound(s: string, i: nat)
    requires i <= |s| && (forall c | c in s[..i] :: IsHexDigit(c)) && HexValue(s[..i]) >= 0x1_0000
    ensures (forall c | c in s :: IsHexDigit(c)) ==> HexValue(s) >= 0x1_0000
  {
    if forall c | c in s :: IsHexDigit(c) {
      HexPrefixGrows(s, i);
    }
  }

  /** A character that is not a digit, reached while the value is still in
      range, makes the parse a syntax error. */
  lemma {:induction false} HexSyntaxFirst(s: string, k: nat)
    requires k < |s| && !IsHexDigit(s[k])
    requires (forall c | c in s[..k] :: IsHexDigit(c)) && HexValue(s[..k]) < 0x1_0000
    ensures ParseHex16(s) == Err(NumError(s, InvalidSyntax))
  {
    assert s[..0] == [];
    HexScanReaches(s, 0, k);
  }

  lemma {:induction false} HexScanReaches(s: string, i: nat, k: nat)
    requires i <= k < |s| && !IsHexDigit(s[k])
    requires (forall c | c in s[..k] :: IsHexDigit(c)) && HexValue(s[..k]) < 0x1_0000
    requires (forall c | c in s[..i] :: IsHexDigit(c)) && HexValue(s[..i]) < 0x1_0000
    ensures ScanHex(s, i) == Err(NumError(s, InvalidSyntax))
    decreases k - i
  {
    if i < k {
      assert s[..k][i] == s[i];
      assert s[..k][..i + 1] == s[..i + 1];
      HexPrefixGrows(s[..k], i + 1);
      assert s[..i + 1] == s[..i] + [s[i]];
      HexScanReaches(s, i + 1, k);
    }
  }

  /** Digits that pass 0xFFFF before any other character make the parse a
      range error. */
  lemma HexRangeFirst(s: string, k: nat)
    requires k <= |s| && (forall c | c in s[..k] :: IsHexDigit(c)) && HexValue(s[..k]) >= 0x1_0000
    ensures ParseHex16(s) == Err(NumError(s, OutOfRange))
  {
    assert s[..0] == [];
    HexScanOverflows(s, 0, k);
  }

  lemma {:induction false} HexScanOverflows(s: string, i: nat, k: nat)
    requires i <= k <= |s| && (forall c | c in s[..k] :: IsHexDigit(c)) && HexValue(s[..k]) >= 0x1_0000
    requires (forall c | c in s[..i] :: IsHexDigit(c)) && HexValue(s[..i]) < 0x1_0000
    ensures ScanHex(s, i) == Err(NumError(s, OutOfRange))
    decreases k - i
  {
    assert i < k;
    assert s[..k][i] == s[i];
    assert s[..i + 1] == s[..i] + [s[i]];
    if HexValue(s[..i + 1]) < 0x1_0000 {
      HexScanOverflows(s, i + 1, k);
    }
  }

  function HexChar(d: nat): (c: char)
    requires d < 16
    ensures IsHexDigit(c) && HexDigitValue(c) == d
  {
    if d < 10 then ('0' as int + d) as char else ('a' as int + d - 10) as char
  }

  /** The lower-case hexadecimal numeral of `n`. */
  function Hex(n: nat): (s: string)
    ensures |s| >= 1 && forall c | c in s :: IsHexDigit(c)
    decreases n
  {
    if n < 16 then [HexChar(n)] else Hex(n / 16) + [HexChar(n % 16)]
  }

  lemma {:induction false} HexRoundTrip(n: nat)
    ensures HexValue(Hex(n)) == n
    decreases n
  {
    if n >= 16 {
      HexRoundTrip(n / 16);
      var s := Hex(n);
      assert s[..|s| - 1] == Hex(n / 16);
    }
  }
}
