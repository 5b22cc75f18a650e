/**
  The npt position header: printing a position as "npt=hh:mm:ss.cc-" (the hh:mm:ss form of
  section 3.6 of RFC 2326) and reading it back out of a list of raw HTTP header lines.
 */
module NptHeader {

  /** The outcome of reading a position: a value, or the exception of an out-of-range access. */
  datatype Parsed = Seconds(value: int) | Thrown

  const SEEK_RANGE := "availableSeekRange.dlna.org"

  // ---------------------------------------------------------------------------
  // Hours, minutes, seconds
  // ---------------------------------------------------------------------------

  datatype Hms = Hms(h: nat, m: nat, s: real)

  /** Splits a time by truncating divisions, as the conversions to unsigned do; negative times count as 0. */
  function TimeToHms(time: real): (r: Hms)
    ensures r.m < 60 && 0.0 <= r.s < 60.0
    ensures 3600.0 * r.h as real + 60.0 * r.m as real + r.s == if time < 0.0 then 0.0 else time
  {
    var t := if time < 0.0 then 0.0 else time;
    var h := (t / 3600.0).Floor;
    var m := ((t - 3600.0 * h as real) / 60.0).Floor;
    assert 0 <= h && 0 <= m < 60 by {
      assert h as real <= t / 3600.0 < h as real + 1.0;
      assert 0.0 <= t - 3600.0 * h as real < 3600.0;
      var rest := t - 3600.0 * h as real;
      assert m as real <= rest / 60.0 < m as real + 1.0;
    }
    Hms(h, m, t - 3600.0 * h as real - 60.0 * m as real)
  }

  // ---------------------------------------------------------------------------
  // Printing
  // ---------------------------------------------------------------------------

  function DigitChar(d: nat): char
    requires d < 10
  {
    '0' + d as char
  }

  predicate IsDigit(c: char) { '0' <= c <= '9' }

  function DigitValue(c: char): nat
    requires IsDigit(c)
  {
    (c - '0') as nat
  }

  /** Decimal digits without leading zeros. */
  function Decimal(n: nat): string {
    if n < 10 then [DigitChar(n)] else Decimal(n / 10) + [DigitChar(n % 10)]
  }

  /** At least two digits. */
  function TwoDigits(n: nat): string {
    if n < 10 then ['0', DigitChar(n)] else Decimal(n)
  }

  /** Hundredths nearest to `x`, ties to even: what a two-decimal conversion prints. */
  function RoundHundredths(x: real): (k: int)
    ensures -0.5 <= 100.0 * x - k as real <= 0.5
  {
    var lo := (100.0 * x).Floor;
    var rest := 100.0 * x - lo as real;
    if rest < 0.5 || (rest == 0.5 && lo % 2 == 0) then lo else lo + 1
  }

  lemma FloorShift(n: int, y: real)
    ensures (n as real + y).Floor == n + y.Floor
  {
    var f := y.Floor;
    assert f as real <= y < f as real + 1.0;
    assert (n + f) as real == n as real + f as real;
  }

  lemma EvenShift(n: int, lo: int)
    ensures (100 * n + lo) % 2 == lo % 2
  {
    assert 100 * n + lo == 2 * (50 * n + lo / 2) + lo % 2;
  }

  /** Rounding to hundredths commutes with adding whole seconds, ties included. */
  lemma RoundShift(n: int, x: real)
    ensures RoundHundredths(n as real + x) == 100 * n + RoundHundredths(x)
  {
    assert 100.0 * (n as real + x) == (100 * n) as real + 100.0 * x;
    FloorShift(100 * n, 100.0 * x);
    EvenShift(n, (100.0 * x).Floor);
  }

  function PrintSeconds(s: real): string
    requires 0.0 <= s
  {
    var k := RoundHundredths(s);
    Decimal(k / 100) + "." + TwoDigits(k % 100)
  }

  function NptValue(time: real): string {
    var r := TimeToHms(time);
    "npt" + (['='] + Fields(TwoDigits(r.h), TwoDigits(r.m), PrintSeconds(r.s) + "-"))
  }

  function Fields(h: string, m: string, s: string): string {
    h + ([':'] + (m + ([':'] + s)))
  }

  // ---------------------------------------------------------------------------
  // Reading
  // ---------------------------------------------------------------------------

  /** The index of the first `c`, or the length if there is none. */
  function FirstIndex(s: string, c: char): (i: nat)
    ensures i <= |s|
  {
    if s == "" || s[0] == c then 0 else 1 + FirstIndex(s[1..], c)
  }

  lemma {:induction false} FirstIndexMeans(s: string, c: char)
    ensures var i := FirstIndex(s, c);
            (i < |s| <==> c in s) && (i < |s| ==> s[i] == c) && c !in s[..i]
  {
    if s != "" && s[0] != c {
      FirstIndexMeans(s[1..], c);
      var i := FirstIndex(s, c);
      assert s == [s[0]] + s[1..] && s[..i] == [s[0]] + s[1..][..i - 1];
    }
  }

  /** The pieces between delimiters; an empty last piece is dropped, as reading lines does. */
  function Split(s: string, delim: char): seq<string>
    decreases |s|
  {
    if s == "" then [] else
      var i := FirstIndex(s, delim);
      if i == |s| then [s] else [s[..i]] + Split(s[i + 1..], delim)
  }

  method ScanTo(s: string, delim: char) returns (i: nat)
    ensures i == FirstIndex(s, delim)
  {
    i := 0;
    while i < |s| && s[i] != delim
      invariant i <= |s| && delim !in s[..i]
    {
      assert s[..i + 1] == s[..i] + [s[i]];
      i := i + 1;
    }
    FirstIndexIs(s, delim, i);
  }

  /** What follows the first piece. */
  function Rest(s: string, i: nat): string {
    if i < |s| then s[i + 1..] else ""
  }

  lemma {:induction false} SplitStep(s: string, delim: char, i: nat)
    requires s != "" && i == FirstIndex(s, delim)
    ensures i <= |s| && Split(s, delim) == [s[..i]] + Split(Rest(s, i), delim)
  {
    var rest := Split(Rest(s, i), delim);
    if i == |s| {
      assert s[..i] == s && [s] + rest == [s];
    } else {
      assert Rest(s, i) == s[i + 1..];
    }
  }

  lemma MoveOver(done: seq<string>, piece: string, rest: seq<string>)
    ensures done + ([piece] + rest) == (done + [piece]) + rest
  {
  }

  method SplitString(s: string, delim: char) returns (elems: seq<string>)
    ensures elems == Split(s, delim)
  {
    elems := [];
    var rest := s;
    while rest != ""
      invariant elems + Split(rest, delim) == Split(s, delim)
      decreases |rest|
    {
      var i := ScanTo(rest, delim);
      SplitStep(rest, delim, i);
      MoveOver(elems, rest[..i], Split(Rest(rest, i), delim));
      elems := elems + [rest[..i]];
      rest := Rest(rest, i);
    }
  }

  lemma {:induction false} FirstIndexIs(s: string, c: char, i: nat)
    requires i <= |s| && c !in s[..i] && (i < |s| ==> s[i] == c)
    ensures FirstIndex(s, c) == i
    decreases i
  {
    if i > 0 {
      assert s[0] in s[..i];
      assert s[1..][..i - 1] == s[..i][1..];
      FirstIndexIs(s[1..], c, i - 1);
    }
  }

  /** A piece without the delimiter comes off whole. */
  lemma SplitPiece(piece: string, delim: char, rest: string)
    requires delim !in piece
    ensures Split(piece + ([delim] + rest), delim) == [piece] + Split(rest, delim)
  {
    var s := piece + ([delim] + rest);
    assert s[..|piece|] == piece && s[|piece|] == delim && s[|piece| + 1..] == rest;
    FirstIndexIs(s, delim, |piece|);
  }

  lemma SplitLast(piece: string, delim: char)
    requires delim !in piece && piece != ""
    ensures Split(piece, delim) == [piece]
  {
    assert piece[..|piece|] == piece;
    FirstIndexIs(piece, delim, |piece|);
  }

  predicate IsSpace(c: char) { c == ' ' || 9 <= c as int <= 13 }

  function LeftTrimmed(s: string): string {
    if s != "" && IsSpace(s[0]) then LeftTrimmed(s[1..]) else s
  }

  function RightTrimmed(s: string): string {
    if s != "" && IsSpace(s[|s| - 1]) then RightTrimmed(s[..|s| - 1]) else s
  }

  function Trimmed(s: string): string { LeftTrimmed(RightTrimmed(s)) }

  method TrimString(s: string) returns (r: string)
    ensures r == Trimmed(s)
  {
    r := s;
    while r != "" && IsSpace(r[|r| - 1])
      invariant RightTrimmed(r) == RightTrimmed(s)
      decreases |r|
    {
      r := r[..|r| - 1];
    }
    ghost var right := r;
    while r != "" && IsSpace(r[0])
      invariant LeftTrimmed(r) == LeftTrimmed(right)
      decreases |r|
    {
      r := r[1..];
    }
  }

  ghost predicate Blank(s: string) { forall c <- s :: IsSpace(c) }

  /** Trimming takes exactly the surrounding blanks off a text that has none at its ends. */
  lemma {:induction false} TrimPadded(left: string, s: string, right: string)
    requires Blank(left) && Blank(right)
    requires s != "" && !IsSpace(s[0]) && !IsSpace(s[|s| - 1])
    ensures Trimmed(left + s + right) == s
  {
    RightTrimPadded(left + s, right);
    LeftTrimPadded(left, s);
  }

  lemma {:induction false} RightTrimPadded(s: string, right: string)
    requires Blank(right) && s != "" && !IsSpace(s[|s| - 1])
    ensures RightTrimmed(s + right) == s
    decreases |right|
  {
    if right == "" {
      assert s + right == s;
    } else {
      assert (s + right)[..|s + right| - 1] == s + right[..|right| - 1];
      RightTrimPadded(s, right[..|right| - 1]);
    }
  }

  lemma {:induction false} LeftTrimPadded(left: string, s: string)
    requires Blank(left) && s != "" && !IsSpace(s[0])
    ensures LeftTrimmed(left + s) == s
    decreases |left|
  {
    if left == "" {
      assert left + s == s;
    } else {
      assert (left + s)[1..] == left[1..] + s;
      LeftTrimPadded(left[1..], s);
    }
  }

  /** The C locale's blanks: space, tab, line feed, vertical tab, form feed, carriage return. */
  lemma Blanks(c: char)
    ensures IsSpace(c) <==> c in {' ', '\t', '\n', 11 as char, 12 as char, '\r'}
  {
  }

  /** Nothing is left of blanks. */
  lemma {:induction false} TrimBlank(s: string)
    requires Blank(s)
    ensures Trimmed(s) == ""
    decreases |s|
  {
    if s != "" {
      assert s[|s| - 1] in s;
      TrimBlank(s[..|s| - 1]);
    }
  }

  predicate StartsWith(s: string, start: string) {
    |start| <= |s| && s[..|start|] == start
  }

  /** The text after the first colon (all of it if there is none), trimmed. */
  function HeaderValue(line: string): string {
    var colon := FirstIndex(line, ':');
    Trimmed(if colon < |line| then line[colon + 1..] else line)
  }

  /** The value of the first header whose line starts with `name`, or "". */
  function FindHeader(headers: seq<string>, name: string): string {
    if headers == [] then ""
    else if StartsWith(headers[0], name) then HeaderValue(headers[0])
    else FindHeader(headers[1..], name)
  }

  method LookUpHeader(headers: seq<string>, name: string) returns (value: string)
    ensures value == FindHeader(headers, name)
  {
    value := "";
    for i := 0 to |headers|
      invariant FindHeader(headers[i..], name) == FindHeader(headers, name)
    {
      if StartsWith(headers[i], name) {
        var line := headers[i];
        var colon := FirstIndex(line, ':');
        value := TrimString(if colon < |line| then line[colon + 1..] else line);
        return;
      }
    }
  }

  lemma {:induction false} FindHeaderAfter(before: seq<string>, line: string, after: seq<string>, name: string)
    requires StartsWith(line, name) && forall h <- before :: !StartsWith(h, name)
    ensures FindHeader(before + [line] + after, name) == HeaderValue(line)
    decreases |before|
  {
    var all := before + [line] + after;
    if before != [] {
      assert before[0] in before && all[1..] == before[1..] + [line] + after;
      FindHeaderAfter(before[1..], line, after, name);
    }
  }

  lemma {:induction false} FindHeaderNone(headers: seq<string>, name: string)
    requires forall h <- headers :: !StartsWith(h, name)
    ensures FindHeader(headers, name) == ""
    decreases |headers|
  {
    if headers != [] {
      assert headers[0] in headers;
      FindHeaderNone(headers[1..], name);
    }
  }

  /** Without a colon the whole line is the value. */
  lemma HeaderWithoutColon(line: string)
    requires ':' !in line
    ensures HeaderValue(line) == Trimmed(line)
  {
    FirstIndexMeans(line, ':');
  }

  function ReadDigits(s: string, acc: int): int
    decreases |s|
  {
    if s != "" && IsDigit(s[0]) then ReadDigits(s[1..], 10 * acc + DigitValue(s[0])) else acc
  }

  /** The C library's text-to-integer conversion. */
  function Atoi(s: string): int {
    var t := LeftTrimmed(s);
    if t != "" && t[0] == '-' then -ReadDigits(t[1..], 0)
    else if t != "" && t[0] == '+' then ReadDigits(t[1..], 0)
    else ReadDigits(t, 0)
  }

  /** The position in a seek-range value: 0 unless it has the form a=h:m:s, an exception if nothing follows '='. */
  function SeekTime(value: string): Parsed {
    if '=' !in value then Seconds(0)
    else
      var parts := Split(value, '=');
      if |parts| < 2 then Thrown
      else if ':' !in parts[1] then Seconds(0)
      else
        var hms := Split(parts[1], ':');
        if |hms| != 3 then Seconds(0)
        else Seconds(Atoi(hms[0]) * 3600 + Atoi(hms[1]) * 60 + Atoi(hms[2]))
  }

  function ReadPosition(headers: seq<string>): Parsed {
    SeekTime(FindHeader(headers, SEEK_RANGE))
  }

  method ParsePosition(headers: seq<string>) returns (r: Parsed)
    ensures r == ReadPosition(headers)
  {
    r := Seconds(0);
    var value := LookUpHeader(headers, SEEK_RANGE);
    if value != "" && '=' in value {
      var parts := SplitString(value, '=');
      if |parts| < 2 {
        return Thrown;
      }
      if ':' in parts[1] {
        var hms := SplitString(parts[1], ':');
        if |hms| == 3 {
          r := Seconds(Atoi(hms[0]) * 3600 + Atoi(hms[1]) * 60 + Atoi(hms[2]));
        }
      }
    }
  }

  /** What stands between the first '=' and the next: nothing without '=', and nothing to access if '=' comes last. */
  datatype Piece = NoPiece | MissingPiece | Piece(text: string)

  function AfterEquals(value: string): Piece {
    if '=' !in value then NoPiece
    else if |Split(value, '=')| < 2 then MissingPiece
    else Piece(Split(value, '=')[1])
  }

  lemma MissingIff(value: string)
    ensures AfterEquals(value) == MissingPiece <==> value != "" && FirstIndex(value, '=') == |value| - 1
  {
    FirstIndexMeans(value, '=');
    if '=' in value {
      var rest := value[FirstIndex(value, '=') + 1..];
      assert |Split(value, '=')| == 1 + |Split(rest, '=')|;
      assert rest != "" ==> |Split(rest, '=')| >= 1;
    }
  }

  /** Reading throws exactly when the first '=' is the last character of the value. */
  lemma ThrowsIff(headers: seq<string>)
    ensures var value := FindHeader(headers, SEEK_RANGE);
            ReadPosition(headers) == Thrown <==> value != "" && FirstIndex(value, '=') == |value| - 1
  {
    MissingIff(FindHeader(headers, SEEK_RANGE));
  }

  // ---------------------------------------------------------------------------
  // Printing, then reading
  // ---------------------------------------------------------------------------

  ghost predicate Digits(s: string) { s != "" && forall c <- s :: IsDigit(c) }

  lemma {:induction false} DecimalIsDigits(n: nat)
    ensures Digits(Decimal(n))
  {
    if n >= 10 {
      DecimalIsDigits(n / 10);
    }
  }

  lemma TwoDigitsIsDigits(n: nat)
    ensures Digits(TwoDigits(n))
  {
    DecimalIsDigits(n);
  }

  lemma {:induction false} ReadAppend(a: string, b: string, acc: int)
    requires forall c <- a :: IsDigit(c)
    ensures ReadDigits(a + b, acc) == ReadDigits(b, ReadDigits(a, acc))
    decreases |a|
  {
    if a == "" {
      assert a + b == b;
    } else {
      assert a[0] in a && (a + b)[1..] == a[1..] + b;
      ReadAppend(a[1..], b, 10 * acc + DigitValue(a[0]));
    }
  }

  lemma {:induction false} ReadDecimal(n: nat)
    ensures ReadDigits(Decimal(n), 0) == n
  {
    if n < 10 {
      assert Decimal(n)[1..] == "";
    } else {
      var d := [DigitChar(n % 10)];
      DecimalIsDigits(n / 10);
      ReadAppend(Decimal(n / 10), d, 0);
      ReadDecimal(n / 10);
      assert d[1..] == "";
    }
  }

  lemma ReadTwoDigits(n: nat)
    ensures ReadDigits(TwoDigits(n), 0) == n
  {
    ReadDecimal(n);
    if n < 10 {
      assert TwoDigits(n)[1..] == Decimal(n);
    }
  }

  /** Conversion stops at the first character that is no digit. */
  lemma AtoiDigits(digits: string, rest: string)
    requires Digits(digits) && (rest != "" ==> !IsDigit(rest[0]))
    ensures Atoi(digits + rest) == ReadDigits(digits, 0)
  {
    assert digits[0] in digits && (digits + rest)[0] == digits[0];
    ReadAppend(digits, rest, 0);
  }

  /** Plain decimal digits: no leading zero, and no more of them than needed. */
  lemma {:induction false} DecimalForm(n: nat)
    ensures |Decimal(n)| >= 1 && (n > 0 ==> Decimal(n)[0] != '0')
    ensures (n < 10 <==> |Decimal(n)| == 1) && (n < 100 ==> |Decimal(n)| <= 2)
  {
    if n >= 10 {
      DecimalForm(n / 10);
    }
  }

  /** Hours and minutes: the number in decimal, padded to two digits. */
  lemma TwoDigitsForm(n: nat)
    ensures Digits(TwoDigits(n)) && ReadDigits(TwoDigits(n), 0) == n && |TwoDigits(n)| >= 2
    ensures (n < 100 ==> |TwoDigits(n)| == 2) && (n >= 10 ==> TwoDigits(n)[0] != '0')
  {
    TwoDigitsIsDigits(n);
    ReadTwoDigits(n);
    DecimalForm(n);
  }

  /** Seconds: whole seconds, a point, and exactly two digits, the hundredths of the rounded value. */
  lemma SecondsForm(s: real)
    requires 0.0 <= s
    ensures var text, k := PrintSeconds(s), RoundHundredths(s);
            var point := |text| - 3;
            && point >= 1 && text[point] == '.'
            && Digits(text[..point]) && ReadDigits(text[..point], 0) == k / 100
            && Digits(text[point + 1..]) && ReadDigits(text[point + 1..], 0) == k % 100
  {
    var text, k := PrintSeconds(s), RoundHundredths(s);
    var whole, cents := Decimal(k / 100), TwoDigits(k % 100);
    DecimalIsDigits(k / 100);
    ReadDecimal(k / 100);
    TwoDigitsForm(k % 100);
    assert text == whole + "." + cents && |text| == |whole| + 3;
    assert text[..|text| - 3] == whole && text[|text| - 2..] == cents;
  }

  /** The whole value: the unit, hours, minutes and seconds between colons, and the open end. */
  lemma ValueForm(time: real)
    ensures var r := TimeToHms(time);
            NptValue(time) == "npt=" + TwoDigits(r.h) + ":" + TwoDigits(r.m) + ":" + PrintSeconds(r.s) + "-"
  {
    var r := TimeToHms(time);
    assert "npt" + ['='] == "npt=";
  }

  /** A sign after blanks counts; without a digit the value is 0. */
  lemma AtoiSigned(blank: string, digits: string, rest: string)
    requires Blank(blank) && Digits(digits) && (rest != "" ==> !IsDigit(rest[0]))
    ensures Atoi(blank + ("-" + digits + rest)) == -ReadDigits(digits, 0)
    ensures Atoi(blank + ("+" + digits + rest)) == ReadDigits(digits, 0)
    ensures !(rest != "" && (IsSpace(rest[0]) || rest[0] == '-' || rest[0] == '+')) ==> Atoi(rest) == 0
  {
    var minus, plus := "-" + digits + rest, "+" + digits + rest;
    LeftTrimPadded(blank, minus);
    LeftTrimPadded(blank, plus);
    assert minus[1..] == digits + rest && plus[1..] == digits + rest;
    ReadAppend(digits, rest, 0);
  }

  /** A value not of the form a=h:m:s stands for position 0, unless nothing follows its equals sign. */
  lemma OtherFormsAreZero(value: string)
    ensures AfterEquals(value) == NoPiece ==> SeekTime(value) == Seconds(0)
    ensures AfterEquals(value).Piece? && ':' !in AfterEquals(value).text ==> SeekTime(value) == Seconds(0)
    ensures AfterEquals(value).Piece? && |Split(AfterEquals(value).text, ':')| != 3 ==> SeekTime(value) == Seconds(0)
  {
  }

  lemma TwoDigitsRoundTrip(n: nat)
    ensures Atoi(TwoDigits(n)) == n
  {
    TwoDigitsIsDigits(n);
    ReadTwoDigits(n);
    AtoiDigits(TwoDigits(n), "");
    assert TwoDigits(n) + "" == TwoDigits(n);
  }

  /** The three fields of a printed position, read back. */
  lemma FieldsRoundTrip(r: Hms)
    requires 0.0 <= r.s
    ensures Atoi(TwoDigits(r.h)) == r.h && Atoi(TwoDigits(r.m)) == r.m
    ensures Atoi(PrintSeconds(r.s) + "-") == RoundHundredths(r.s) / 100
  {
    TwoDigitsRoundTrip(r.h);
    TwoDigitsRoundTrip(r.m);
    var k := RoundHundredths(r.s);
    var cents := "." + TwoDigits(k % 100) + "-";
    DecimalIsDigits(k / 100);
    ReadDecimal(k / 100);
    AtoiDigits(Decimal(k / 100), cents);
    assert PrintSeconds(r.s) + "-" == Decimal(k / 100) + cents;
  }

  lemma NoDelimiters(r: Hms)
    requires 0.0 <= r.s
    ensures ':' !in TwoDigits(r.h) && ':' !in TwoDigits(r.m) && ':' !in PrintSeconds(r.s) + "-"
    ensures '=' !in TwoDigits(r.h) && '=' !in TwoDigits(r.m) && '=' !in PrintSeconds(r.s) + "-"
  {
    TwoDigitsIsDigits(r.h);
    TwoDigitsIsDigits(r.m);
    DecimalIsDigits(RoundHundredths(r.s) / 100);
    TwoDigitsIsDigits(RoundHundredths(r.s) % 100);
  }

  lemma SplitFields(h: string, m: string, s: string)
    requires ':' !in h && ':' !in m && ':' !in s && s != ""
    ensures Split(Fields(h, m, s), ':') == [h, m, s]
  {
    SplitPiece(h, ':', m + ([':'] + s));
    SplitPiece(m, ':', s);
    SplitLast(s, ':');
    assert [h] + ([m] + [s]) == [h, m, s];
  }

  lemma SplitValue(hms: string)
    requires '=' !in hms && hms != ""
    ensures Split("npt" + (['='] + hms), '=') == ["npt", hms] && '=' in "npt" + (['='] + hms)
  {
    SplitPiece("npt", '=', hms);
    SplitLast(hms, '=');
    assert ("npt" + (['='] + hms))[3] == '=';
  }

  lemma SplitsBack(r: Hms)
    requires 0.0 <= r.s
    ensures SeekTime("npt" + (['='] + Fields(TwoDigits(r.h), TwoDigits(r.m), PrintSeconds(r.s) + "-")))
         == Seconds(3600 * r.h + 60 * r.m + RoundHundredths(r.s) / 100)
  {
    var h, m, s := TwoDigits(r.h), TwoDigits(r.m), PrintSeconds(r.s) + "-";
    NoDelimiters(r);
    FieldsRoundTrip(r);
    FieldsSplitBack(h, m, s);
  }

  lemma SeekTimeOf(value: string, name: string, fields: string, h: string, m: string, s: string)
    requires '=' in value && Split(value, '=') == [name, fields]
    requires ':' in fields && Split(fields, ':') == [h, m, s]
    ensures SeekTime(value) == Seconds(Atoi(h) * 3600 + Atoi(m) * 60 + Atoi(s))
  {
  }

  lemma FieldsSplitBack(h: string, m: string, s: string)
    requires ':' !in h && ':' !in m && ':' !in s && '=' !in h && '=' !in m && '=' !in s && s != ""
    ensures SeekTime("npt" + (['='] + Fields(h, m, s))) == Seconds(Atoi(h) * 3600 + Atoi(m) * 60 + Atoi(s))
  {
    var fields := Fields(h, m, s);
    FieldsHold(h, m, s);
    SplitValue(fields);
    SplitFields(h, m, s);
    SeekTimeOf("npt" + (['='] + fields), "npt", fields, h, m, s);
  }

  lemma FieldsHold(h: string, m: string, s: string)
    requires '=' !in h && '=' !in m && '=' !in s
    ensures '=' !in Fields(h, m, s) && ':' in Fields(h, m, s)
  {
    var tail := m + ([':'] + s);
    assert '=' !in tail;
    assert Fields(h, m, s)[|h|] == ':';
  }

  /** A value placed in a header line, padded with any blanks and behind any other headers, is found again. */
  lemma HeaderRoundTrip(value: string, before: seq<string>, left: string, right: string, after: seq<string>)
    requires Blank(left) && Blank(right)
    requires value != "" && !IsSpace(value[0]) && !IsSpace(value[|value| - 1])
    requires forall h <- before :: !StartsWith(h, SEEK_RANGE)
    ensures FindHeader(before + [SEEK_RANGE + ":" + left + value + right] + after, SEEK_RANGE) == value
  {
    var padded := left + value + right;
    var line := SEEK_RANGE + ":" + left + value + right;
    assert line == SEEK_RANGE + [':'] + padded;
    assert line[..|SEEK_RANGE|] == SEEK_RANGE && line[|SEEK_RANGE| + 1..] == padded;
    FindHeaderAfter(before, line, after, SEEK_RANGE);
    assert ':' !in SEEK_RANGE;
    FirstIndexIs(line, ':', |SEEK_RANGE|);
    TrimPadded(left, value, right);
  }

  lemma WholeSeconds(time: real)
    ensures var t := if time < 0.0 then 0.0 else time;
            var r := TimeToHms(time);
            3600 * r.h + 60 * r.m + RoundHundredths(r.s) / 100 == RoundHundredths(t) / 100
  {
    var t := if time < 0.0 then 0.0 else time;
    var r := TimeToHms(time);
    var whole := 3600 * r.h + 60 * r.m;
    assert t == whole as real + r.s;
    RoundShift(whole, r.s);
  }

  /**
    A position printed into a header line reads back as the whole seconds of the position
    rounded to hundredths, wherever the line stands and however it is padded.
   */
  lemma RoundTrip(time: real, before: seq<string>, left: string, right: string, after: seq<string>)
    requires Blank(left) && Blank(right)
    requires forall h <- before :: !StartsWith(h, SEEK_RANGE)
    ensures var line := SEEK_RANGE + ":" + left + NptValue(time) + right;
            var t := if time < 0.0 then 0.0 else time;
            ReadPosition(before + [line] + after) == Seconds(RoundHundredths(t) / 100)
  {
    HeaderRoundTrip(NptValue(time), before, left, right, after);
    SplitsBack(TimeToHms(time));
    WholeSeconds(time);
  }

  /** The round trip loses only the fraction, but the last five thousandths of a second read as the next second. */
  lemma ReadsSameSecondIff(t: real)
    requires 0.0 <= t
    ensures RoundHundredths(t) / 100 == t.Floor <==> t - t.Floor as real < 0.995
  {
    var n := t.Floor;
    var f := t - n as real;
    RoundShift(n, f);
    var k := RoundHundredths(f);
    assert (100 * n + k) / 100 == n + k / 100;
    if f < 0.995 {
      assert k <= 99;
    } else {
      assert (100.0 * f).Floor == 99;
    }
  }

  // ---------------------------------------------------------------------------
  // The player's position
  // ---------------------------------------------------------------------------

  const INT_LIMIT: int := 0x8000_0000
  const UNSIGNED_LIMIT: nat := 0x1_0000_0000

  /** The start position, in seconds, with which the server announces the end of a VOD asset. */
  const END_MARK: nat := 0x7FFF_FFFF / 1000

  const PLAY_SPEED := "PlaySpeed.dlna.org"

  function Unsigned(x: int): nat { x % UNSIGNED_LIMIT }

  predicate InInt(x: int) { -INT_LIMIT <= x < INT_LIMIT }

  /** No step of the sum leaves the range of a signed integer, beyond which its value is undefined. */
  predicate SumDefined(h: int, m: int, s: int) {
    InInt(h) && InInt(h * 3600) && InInt(m * 60) && InInt(h * 3600 + m * 60) && InInt(h * 3600 + m * 60 + s)
  }

  /**
    The sum that reading a printed position computes is defined exactly below 2^31 seconds, and what is stored then
    is the whole rounded seconds.
   */
  lemma StoredIff(time: real, before: seq<string>, left: string, right: string, after: seq<string>)
    requires 0.0 <= time && Blank(left) && Blank(right)
    requires forall h <- before :: !StartsWith(h, SEEK_RANGE)
    ensures var line := "availableSeekRange.dlna.org" + ":" + left + NptValue(time) + right;
            var read := ReadPosition(before + [line] + after);
            var r, whole := TimeToHms(time), RoundHundredths(time) / 100;
            && read == Seconds(whole)
            && (SumDefined(r.h, r.m, RoundHundredths(r.s) / 100) <==> whole < INT_LIMIT)
            && (whole < INT_LIMIT ==> Unsigned(read.value) == whole)
  {
    RoundTrip(time, before, left, right, after);
    WholeSeconds(time);
    SumDefinedIff(TimeToHms(time).h, TimeToHms(time).m, RoundHundredths(TimeToHms(time).s) / 100);
  }

  lemma SumDefinedIff(h: nat, m: nat, s: nat)
    ensures SumDefined(h, m, s) <==> h * 3600 + m * 60 + s < INT_LIMIT
  {
  }

  /** The rate a text stands for; 0 means pause, which is played at rate 1 later. */
  function RateOf(speed: real): real { if speed == 0.0 then 1.0 else speed }

  /** Whether a reply announces the end: a VOD asset kept playing is sent to the mark. */
  predicate Announces(headers: seq<string>, keptPlaying: bool) {
    var read := ReadPosition(headers);
    keptPlaying && read.Seconds? && Unsigned(read.value) == END_MARK
  }

  class SeekPosition {
    var base: nat         // the position the clock runs from
    var progress: real    // movement since
    var rate: real
    var paused: bool
    var eosPending: bool  // the end was announced: positions and rates are ignored from now on

    constructor ()
      ensures base == 0 && !eosPending && progress == 0.0 && rate == 1.0 && !paused
    {
      base, eosPending, progress, rate, paused := 0, false, 0.0, 1.0, false;
    }

    /**
      A reply without ad insertion arrived; `ok` is false if reading it threw. `atof` is the C library's
      text-to-real conversion.
     */
    method OnReply(headers: seq<string>, keptPlaying: bool, atof: string -> real) returns (ok: bool)
      modifies this
      // Reading throws exactly if one of the two headers it heeds ends in its first '='.
      ensures ok <==>
                || old(eosPending)
                || (&& ReadPosition(headers) != Thrown
                    && (Announces(headers, keptPlaying)
                        || AfterEquals(FindHeader(headers, PLAY_SPEED)) != MissingPiece))
      ensures eosPending <==> old(eosPending) || Announces(headers, keptPlaying)
      ensures base == if !ok then old(base) else if old(eosPending) then 0 else Unsigned(ReadPosition(headers).value)
      // The rate is heeded only until the end is announced.
      ensures var speed := AfterEquals(FindHeader(headers, PLAY_SPEED));
              if ok && !eosPending && speed.Piece?
              then progress == 0.0 && rate == RateOf(atof(speed.text)) && (paused <==> atof(speed.text) == 0.0)
              else progress == old(progress) && rate == old(rate) && paused == old(paused)
    {
      ok := false;
      var seekTime := Seconds(0);
      if !eosPending {
        seekTime := ParsePosition(headers);
        if seekTime == Thrown {
          return;
        }
        if keptPlaying && Unsigned(seekTime.value) == END_MARK {
          eosPending := true;
        }
      }
      if !eosPending {
        var heeded := OnSpeed(headers, atof);
        if !heeded {
          return;
        }
      }
      base := Unsigned(seekTime.value);
      ok := true;
    }

    /** The speed header. */
    method OnSpeed(headers: seq<string>, atof: string -> real) returns (ok: bool)
      modifies this`progress, this`rate, this`paused
      ensures var speed := AfterEquals(FindHeader(headers, PLAY_SPEED));
              && (ok <==> speed != MissingPiece)
              && if speed.Piece?
                 then progress == 0.0 && rate == RateOf(atof(speed.text)) && (paused <==> atof(speed.text) == 0.0)
                 else progress == old(progress) && rate == old(rate) && paused == old(paused)
    {
      ok := true;
      var value := LookUpHeader(headers, PLAY_SPEED);
      if value != "" && '=' in value {
        var parts := SplitString(value, '=');
        if |parts| < 2 {
          return false;
        }
        progress := 0.0;
        var speed := atof(parts[1]);
        paused := speed == 0.0;
        rate := if paused then 1.0 else speed;
      }
    }
  }
}
