/** The listing cursor: `hex(<micros>:<document id>)`, in lower-case Base16. Texts are UTF-8 bytes; only the
    encoded token is a string of characters. */
module Cursor {
  import opened Wrappers

  const COLON: Byte := 58
  const PLUS: Byte := 43
  const MINUS: Byte := 45
  const ZERO: Byte := 48

  const MIN_I64 := -0x8000_0000_0000_0000
  const MAX_I64 := 0x7FFF_FFFF_FFFF_FFFF

  /** First and last microsecond of the calendar the source's time type covers: years -262143 to 262142. */
  const MIN_MICROS := -8_334_601_228_800_000_000
  const MAX_MICROS := 8_210_266_876_799_999_999

  /** Days before the first of January of a year, counted from the first of January of year 1. */
  function DaysBefore(year: int): int {
    365 * (year - 1) + (year - 1) / 4 - (year - 1) / 100 + (year - 1) / 400
  }

  /** Those are the first and the last microsecond of the years -262143 and 262142, counted from 1970. */
  lemma CalendarBounds()
    ensures MIN_MICROS == (DaysBefore(-262143) - DaysBefore(1970)) * 86_400_000_000
    ensures MAX_MICROS == (DaysBefore(262143) - DaysBefore(1970)) * 86_400_000_000 - 1
    ensures MIN_I64 == -9_223_372_036_854_775_808 && MAX_I64 == 9_223_372_036_854_775_807
  {
  }

  /** A point in the listing order; `updatedAt` in microseconds. */
  datatype Cursor = Cursor(updatedAt: int, documentId: Bytes)

  // ------------------------------------------------------------------ UTF-8

  predicate In(bs: Bytes, i: nat, lo: Byte, hi: Byte) {
    i < |bs| && lo <= bs[i] <= hi
  }

  predicate Continues(bs: Bytes, i: nat) {
    In(bs, i, 0x80, 0xBF)
  }

  /** Length of the well-formed scalar value at the front; 0 when there is none. */
  function ScalarLength(bs: Bytes): (n: nat)
    ensures n <= |bs| && n <= 4
    ensures bs != [] && bs[0] < 0x80 ==> n == 1
  {
    if bs == [] then 0
    else if bs[0] < 0x80 then 1
    else if In(bs, 0, 0xC2, 0xDF) && Continues(bs, 1) then 2
    else if ThreeByteLead(bs) && Continues(bs, 2) then 3
    else if FourByteLead(bs) && Continues(bs, 2) && Continues(bs, 3) then 4
    else 0
  }

  predicate ThreeByteLead(bs: Bytes) {
    || (In(bs, 0, 0xE0, 0xE0) && In(bs, 1, 0xA0, 0xBF))
    || (In(bs, 0, 0xE1, 0xEC) && Continues(bs, 1))
    || (In(bs, 0, 0xED, 0xED) && In(bs, 1, 0x80, 0x9F))
    || (In(bs, 0, 0xEE, 0xEF) && Continues(bs, 1))
  }

  predicate FourByteLead(bs: Bytes) {
    || (In(bs, 0, 0xF0, 0xF0) && In(bs, 1, 0x90, 0xBF))
    || (In(bs, 0, 0xF1, 0xF3) && Continues(bs, 1))
    || (In(bs, 0, 0xF4, 0xF4) && In(bs, 1, 0x80, 0x8F))
  }

  predicate Utf8(bs: Bytes) {
    bs == [] || (ScalarLength(bs) > 0 && Utf8(bs[ScalarLength(bs)..]))
  }

  predicate Ascii(bs: Bytes) {
    forall i :: 0 <= i < |bs| ==> bs[i] < 0x80
  }

  lemma {:induction false} AsciiPrefix(ascii: Bytes, rest: Bytes)
    requires Ascii(ascii)
    ensures Utf8(ascii + rest) <==> Utf8(rest)
  {
    if ascii == [] {
      assert ascii + rest == rest;
    } else {
      var whole := ascii + rest;
      assert whole[0] == ascii[0];
      assert whole[1..] == ascii[1..] + rest;
      AsciiPrefix(ascii[1..], rest);
    }
  }

  /** The Unicode scalar values. */
  predicate Scalar(n: nat) {
    n < 0xD800 || 0xE000 <= n <= 0x10FFFF
  }

  /** The form of a scalar value in one to four bytes, each byte after the first carrying six bits. */
  function EncodeScalar(n: nat): (bs: Bytes)
    requires Scalar(n)
    ensures 1 <= |bs| <= 4
  {
    if n < 0x80 then [n]
    else if n < 0x800 then [0xC0 + n / 64, 0x80 + n % 64]
    else if n < 0x10000 then [0xE0 + n / 4096, 0x80 + n / 64 % 64, 0x80 + n % 64]
    else [0xF0 + n / 262144, 0x80 + n / 4096 % 64, 0x80 + n / 64 % 64, 0x80 + n % 64]
  }

  function EncodeScalars(ns: seq<nat>): Bytes
    requires forall n <- ns :: Scalar(n)
  {
    if ns == [] then [] else EncodeScalar(ns[0]) + EncodeScalars(ns[1..])
  }

  lemma ScalarIsRead(n: nat, rest: Bytes)
    requires Scalar(n)
    ensures ScalarLength(EncodeScalar(n) + rest) == |EncodeScalar(n)|
  {
    var head := EncodeScalar(n);
    var bs := head + rest;
    assert forall i :: 0 <= i < |head| ==> bs[i] == head[i];
    if 0x800 <= n < 0x10000 {
      assert ThreeByteLead(bs) && Continues(bs, 2);
    } else if n >= 0x10000 {
      assert FourByteLead(bs) && Continues(bs, 2) && Continues(bs, 3);
    }
  }

  lemma SixBits(a: nat, b: nat, c: nat, d: nat)
    requires b < 64 && c < 64 && d < 64
    ensures var n := a * 64 + b; n / 64 == a && n % 64 == b
    ensures var n := a * 4096 + b * 64 + c; n / 4096 == a && n / 64 % 64 == b && n % 64 == c
    ensures var n := a * 262144 + b * 4096 + c * 64 + d;
            n / 262144 == a && n / 4096 % 64 == b && n / 64 % 64 == c && n % 64 == d
  {
  }

  /** A well-formed scalar at the front is the form of a scalar value. */
  lemma ReadIsScalar(bs: Bytes) returns (n: nat)
    requires ScalarLength(bs) > 0
    ensures Scalar(n) && EncodeScalar(n) == bs[..ScalarLength(bs)]
  {
    var k := ScalarLength(bs);
    if k == 1 {
      n := bs[0];
    } else if k == 2 {
      n := ReadTwo(bs);
    } else if k == 3 {
      n := ReadThree(bs);
    } else {
      n := ReadFour(bs);
    }
  }

  lemma ReadTwo(bs: Bytes) returns (n: nat)
    requires ScalarLength(bs) == 2
    ensures Scalar(n) && EncodeScalar(n) == bs[..2]
  {
    var a: int, b: int := bs[0], bs[1];
    n := (a - 0xC0) * 64 + (b - 0x80);
    SixBits(a - 0xC0, b - 0x80, 0, 0);
    assert EncodeScalar(n) == [bs[0], bs[1]];
  }

  lemma ReadThree(bs: Bytes) returns (n: nat)
    requires ScalarLength(bs) == 3
    ensures Scalar(n) && EncodeScalar(n) == bs[..3]
  {
    var a: int, b: int, c: int := bs[0], bs[1], bs[2];
    n := (a - 0xE0) * 4096 + (b - 0x80) * 64 + (c - 0x80);
    SixBits(a - 0xE0, b - 0x80, c - 0x80, 0);
    assert EncodeScalar(n) == [bs[0], bs[1], bs[2]];
  }

  lemma ReadFour(bs: Bytes) returns (n: nat)
    requires ScalarLength(bs) == 4
    ensures Scalar(n) && EncodeScalar(n) == bs[..4]
  {
    var a: int, b: int, c: int, d: int := bs[0], bs[1], bs[2], bs[3];
    n := (a - 0xF0) * 262144 + (b - 0x80) * 4096 + (c - 0x80) * 64 + (d - 0x80);
    SixBits(a - 0xF0, b - 0x80, c - 0x80, d - 0x80);
    assert EncodeScalar(n) == [bs[0], bs[1], bs[2], bs[3]];
  }

  /** The check accepts exactly the forms of sequences of scalar values. */
  lemma {:induction false} ScalarsAreUtf8(ns: seq<nat>)
    requires forall n <- ns :: Scalar(n)
    ensures Utf8(EncodeScalars(ns))
  {
    if ns != [] {
      var head, rest := EncodeScalar(ns[0]), EncodeScalars(ns[1..]);
      ScalarIsRead(ns[0], rest);
      ScalarsAreUtf8(ns[1..]);
      assert (head + rest)[|head|..] == rest;
    }
  }

  lemma {:induction false} Utf8IsScalars(bs: Bytes) returns (ns: seq<nat>)
    requires Utf8(bs)
    ensures (forall n <- ns :: Scalar(n)) && EncodeScalars(ns) == bs
  {
    if bs == [] {
      ns := [];
    } else {
      var k := ScalarLength(bs);
      var n := ReadIsScalar(bs);
      var rest := Utf8IsScalars(bs[k..]);
      ns := [n] + rest;
      assert ns[1..] == rest;
      assert bs == bs[..k] + bs[k..];
    }
  }

  // ------------------------------------------------------------------ Base16

  function HexDigit(n: nat): char
    requires n < 16
  {
    if n < 10 then '0' + n as char else 'a' + (n - 10) as char
  }

  /** Either case is read. */
  function HexValue(c: char): (r: Option<nat>)
    ensures r.Some? ==> r.value < 16
  {
    if '0' <= c <= '9' then Some((c - '0') as nat)
    else if 'a' <= c <= 'f' then Some((c - 'a') as nat + 10)
    else if 'A' <= c <= 'F' then Some((c - 'A') as nat + 10)
    else None
  }

  lemma HexDigitReads(n: nat)
    requires n < 16
    ensures HexValue(HexDigit(n)) == Some(n)
  {
  }

  function HexEncode(bs: Bytes): string {
    if bs == [] then "" else [HexDigit(bs[0] / 16), HexDigit(bs[0] % 16)] + HexEncode(bs[1..])
  }

  function HexDecode(s: string): Option<Bytes> {
    if s == "" then Some([])
    else if |s| == 1 then None
    else
      match (HexValue(s[0]), HexValue(s[1]), HexDecode(s[2..]))
      case (Some(hi), Some(lo), Some(rest)) => Some([hi * 16 + lo] + rest)
      case _ => None
  }

  lemma {:induction false} HexRoundTrip(bs: Bytes)
    ensures HexDecode(HexEncode(bs)) == Some(bs)
  {
    if bs != [] {
      var s := HexEncode(bs);
      assert bs == [bs[0]] + bs[1..];
      assert s[0] == HexDigit(bs[0] / 16) && s[1] == HexDigit(bs[0] % 16) && s[2..] == HexEncode(bs[1..]);
      HexDigitReads(bs[0] / 16);
      HexDigitReads(bs[0] % 16);
      HexRoundTrip(bs[1..]);
    }
  }

  /** Digits of either case are read, and nothing else. */
  lemma HexValueIs(c: char, n: nat)
    requires n < 16
    ensures HexValue(c) == Some(n) <==> c == "0123456789abcdef"[n] || c == "0123456789ABCDEF"[n]
  {
  }

  function LowerCase(c: char): char {
    if 'A' <= c <= 'F' then c - 'A' + 'a' else c
  }

  function Lower(s: string): string {
    if s == "" then "" else [LowerCase(s[0])] + Lower(s[1..])
  }

  lemma HexValueLower(c: char, n: nat)
    requires n < 16
    ensures HexValue(c) == Some(n) <==> LowerCase(c) == HexDigit(n)
  {
  }

  /** A text decodes to exactly the bytes whose encoding it is, apart from case. */
  lemma {:induction false} HexDecodeIs(s: string, bs: Bytes)
    ensures HexDecode(s) == Some(bs) <==> Lower(s) == HexEncode(bs)
  {
    if |s| >= 2 {
      assert Lower(s) == [LowerCase(s[0]), LowerCase(s[1])] + Lower(s[2..]) by {
        assert s[1..][1..] == s[2..];
      }
      if bs != [] {
        HexDecodeIs(s[2..], bs[1..]);
        HexValueLower(s[0], bs[0] / 16);
        HexValueLower(s[1], bs[0] % 16);
        HexHeadIs(s, bs);
        SamePair(LowerCase(s[0]), LowerCase(s[1]), HexDigit(bs[0] / 16), HexDigit(bs[0] % 16), Lower(s[2..]),
                 HexEncode(bs[1..]));
      } else {
        assert HexDecode(s).Some? ==> |HexDecode(s).value| > 0;
        assert |Lower(s)| >= 2;
      }
    } else if |s| == 1 {
      assert |Lower(s)| == 1;
      EvenLength(bs);
    }
  }

  lemma SamePair(a: char, b: char, c: char, d: char, x: string, y: string)
    ensures [a, b] + x == [c, d] + y <==> a == c && b == d && x == y
  {
    assert ([a, b] + x)[2..] == x && ([c, d] + y)[2..] == y;
    assert ([a, b] + x)[0] == a && ([a, b] + x)[1] == b && ([c, d] + y)[0] == c && ([c, d] + y)[1] == d;
  }

  lemma {:induction false} EvenLength(bs: Bytes)
    ensures |HexEncode(bs)| == 2 * |bs|
  {
    if bs != [] {
      EvenLength(bs[1..]);
    }
  }

  lemma HexHeadIs(s: string, bs: Bytes)
    requires |s| >= 2 && bs != []
    ensures HexDecode(s) == Some(bs) <==>
            && HexValue(s[0]) == Some(bs[0] / 16) && HexValue(s[1]) == Some(bs[0] % 16)
            && HexDecode(s[2..]) == Some(bs[1..])
  {
    assert bs == [bs[0]] + bs[1..];
    match (HexValue(s[0]), HexValue(s[1]), HexDecode(s[2..])) {
      case (Some(hi), Some(lo), Some(rest)) =>
        assert (hi * 16 + lo) / 16 == hi && (hi * 16 + lo) % 16 == lo;
        assert ([hi * 16 + lo] + rest)[1..] == rest;
      case _ =>
    }
  }

  // ------------------------------------------------------------------ decimal numerals

  predicate Digit(b: Byte) {
    ZERO <= b < ZERO + 10
  }

  predicate AllDigits(bs: Bytes) {
    forall i :: 0 <= i < |bs| ==> Digit(bs[i])
  }

  predicate Digits(bs: Bytes) {
    bs != [] && AllDigits(bs)
  }

  function Numeral(n: nat): (bs: Bytes)
    ensures Digits(bs)
  {
    if n < 10 then [ZERO + n] else Numeral(n / 10) + [ZERO + n % 10]
  }

  function Value(bs: Bytes): nat
    requires AllDigits(bs)
  {
    if bs == [] then 0
    else
      assert Digit(bs[|bs| - 1]);
      Value(bs[..|bs| - 1]) * 10 + (bs[|bs| - 1] - ZERO)
  }

  lemma {:induction false} NumeralValue(n: nat)
    ensures Value(Numeral(n)) == n
  {
    var bs := Numeral(n);
    if n >= 10 {
      NumeralValue(n / 10);
      assert bs[..|bs| - 1] == Numeral(n / 10);
    } else {
      assert bs[..0] == [];
    }
  }

  function Format(n: int): Bytes {
    if n < 0 then [MINUS] + Numeral(-n) else Numeral(n)
  }

  /** Plain decimal: a minus sign only for negative numbers, no plus sign, no leading zeros. */
  lemma {:induction false} FormatIsPlain(n: int)
    ensures var digits := if n < 0 then Format(n)[1..] else Format(n);
            && (n < 0 ==> Format(n)[0] == MINUS)
            && Digits(digits) && Value(digits) == (if n < 0 then -n else n) && (|digits| > 1 ==> digits[0] != ZERO)
  {
    var v: nat := if n < 0 then -n else n;
    NumeralValue(v);
    NoLeadingZero(v);
    if n < 0 {
      assert Format(n)[1..] == Numeral(v);
    }
  }

  lemma {:induction false} NoLeadingZero(v: nat)
    ensures |Numeral(v)| > 1 ==> Numeral(v)[0] != ZERO
    ensures v > 0 ==> Numeral(v)[0] != ZERO
  {
    if v >= 10 {
      NoLeadingZero(v / 10);
    }
  }

  /** An optional sign and at least one digit, in the range of a 64-bit integer. */
  function ParseI64(bs: Bytes): Option<int> {
    if bs == [] then None
    else
      var digits := if bs[0] == PLUS || bs[0] == MINUS then bs[1..] else bs;
      if !Digits(digits) then None
      else
        var n: int := if bs[0] == MINUS then 0 - Value(digits) else Value(digits);
        if MIN_I64 <= n <= MAX_I64 then Some(n) else None
  }

  lemma FormatParses(n: int)
    requires MIN_I64 <= n <= MAX_I64
    ensures ParseI64(Format(n)) == Some(n)
  {
    var digits := Numeral(if n < 0 then -n else n);
    NumeralValue(if n < 0 then -n else n);
    assert Digit(digits[0]);
    if n < 0 {
      assert ([MINUS] + digits)[1..] == digits;
    }
  }

  function Zeros(n: nat): Bytes {
    seq(n, _ => ZERO)
  }

  lemma {:induction false} DigitsAreNumeral(bs: Bytes) returns (z: nat)
    requires Digits(bs)
    ensures bs == Zeros(z) + Numeral(Value(bs))
  {
    var n := |bs| - 1;
    assert Digit(bs[n]);
    assert bs == bs[..n] + [bs[n]];
    if n == 0 {
      z := 0;
      assert bs[..0] == [];
    } else {
      z := DigitsAreNumeral(bs[..n]);
      PushDigit(Value(bs[..n]), bs[n] - ZERO, z);
      if Value(bs[..n]) == 0 {
        z := z + 1;
      }
    }
  }

  /** Appending a digit to a numeral, with its zeros in front. */
  lemma PushDigit(v: nat, d: nat, z: nat)
    requires d < 10
    ensures v > 0 ==> Zeros(z) + Numeral(v) + [ZERO + d] == Zeros(z) + Numeral(v * 10 + d)
    ensures v == 0 ==> Zeros(z) + Numeral(v) + [ZERO + d] == Zeros(z + 1) + Numeral(d)
  {
    if v > 0 {
      assert (v * 10 + d) / 10 == v && (v * 10 + d) % 10 == d;
    } else {
      assert Zeros(z) + [ZERO] == Zeros(z + 1);
    }
  }

  lemma {:induction false} ZerosAddNothing(z: nat, ds: Bytes)
    requires Digits(ds)
    ensures Digits(Zeros(z) + ds) && Value(Zeros(z) + ds) == Value(ds)
    decreases |ds|, z
  {
    var bs := Zeros(z) + ds;
    var n := |ds| - 1;
    if n > 0 {
      ZerosAddNothing(z, ds[..n]);
      assert bs[..|bs| - 1] == Zeros(z) + ds[..n];
    } else {
      ZerosAreNothing(z);
      assert bs[..|bs| - 1] == Zeros(z);
      assert ds[..0] == [];
    }
  }

  lemma {:induction false} ZerosAreNothing(z: nat)
    ensures Value(Zeros(z)) == 0
  {
    if z > 0 {
      ZerosAreNothing(z - 1);
      assert Zeros(z)[..z - 1] == Zeros(z - 1);
    }
  }

  /** A number is read exactly from its decimal numeral, with leading zeros or not, after an optional sign that fits
      it. */
  lemma ParseIs(bs: Bytes, n: int)
    ensures ParseI64(bs) == Some(n) <==> MIN_I64 <= n <= MAX_I64 && exists z: nat, sign: Bytes :: Reads(bs, n, z, sign)
  {
    if MIN_I64 <= n <= MAX_I64 && exists z: nat, sign: Bytes :: Reads(bs, n, z, sign) {
      var z: nat, sign: Bytes :| Reads(bs, n, z, sign);
      ReadsParses(bs, n, z, sign);
    }
    if ParseI64(bs) == Some(n) {
      ParsedReads(bs, n);
    }
  }

  predicate Reads(bs: Bytes, n: int, z: nat, sign: Bytes) {
    && bs == sign + (Zeros(z) + Numeral(if n < 0 then -n else n))
    && ((n >= 0 && (sign == [] || sign == [PLUS])) || (n <= 0 && sign == [MINUS]))
  }

  lemma ReadsParses(bs: Bytes, n: int, z: nat, sign: Bytes)
    requires MIN_I64 <= n <= MAX_I64 && Reads(bs, n, z, sign)
    ensures ParseI64(bs) == Some(n)
  {
    var v: nat := if n < 0 then -n else n;
    var digits := Zeros(z) + Numeral(v);
    ZerosAddNothing(z, Numeral(v));
    NumeralValue(v);
    assert Digit(digits[0]);
    if sign == [] {
      assert bs == digits;
    } else {
      assert bs[1..] == digits && bs[0] == sign[0];
    }
  }

  lemma ParsedReads(bs: Bytes, n: int)
    requires ParseI64(bs) == Some(n)
    ensures exists z: nat, sign: Bytes :: Reads(bs, n, z, sign)
  {
    var signed := bs[0] == PLUS || bs[0] == MINUS;
    var digits := if signed then bs[1..] else bs;
    var sign: Bytes := if signed then [bs[0]] else [];
    var z := DigitsAreNumeral(digits);
    assert bs == sign + digits;
    assert Reads(bs, n, z, sign);
  }

  lemma ParsedIsAscii(bs: Bytes)
    requires ParseI64(bs).Some?
    ensures Ascii(bs) && COLON !in bs
  {
    if bs[0] == PLUS || bs[0] == MINUS {
      assert bs == [bs[0]] + bs[1..];
    }
  }

  // ------------------------------------------------------------------ the cursor

  /** The parts around the first colon. */
  function SplitOnce(bs: Bytes): Option<(Bytes, Bytes)> {
    if bs == [] then None
    else if bs[0] == COLON then Some(([], bs[1..]))
    else
      match SplitOnce(bs[1..])
      case None => None
      case Some(parts) => Some(([bs[0]] + parts.0, parts.1))
  }

  /** The split is at the first colon, and only there. */
  lemma {:induction false} SplitOnceIs(bs: Bytes, a: Bytes, b: Bytes)
    ensures SplitOnce(bs) == Some((a, b)) <==> COLON !in a && bs == a + [COLON] + b
    decreases |bs|, 1
  {
    if bs != [] {
      if bs[0] == COLON {
        assert bs == [] + [COLON] + bs[1..];
        if a == [] {
          assert (a + [COLON] + b)[1..] == b;
        } else {
          assert (a + [COLON] + b)[0] == a[0];
          assert a[0] in a;
        }
      } else {
        SplitTail(bs, a, b);
      }
    }
  }

  lemma {:induction false} SplitTail(bs: Bytes, a: Bytes, b: Bytes)
    requires bs != [] && bs[0] != COLON
    ensures SplitOnce(bs) == Some((a, b)) <==> COLON !in a && bs == a + [COLON] + b
    decreases |bs|, 0
  {
    if a == [] {
      assert (a + [COLON] + b)[0] == COLON;
    } else {
      SplitOnceIs(bs[1..], a[1..], b);
      assert a == [a[0]] + a[1..];
      assert bs == [bs[0]] + bs[1..];
      assert a + [COLON] + b == [a[0]] + (a[1..] + [COLON] + b);
    }
  }

  function Text(c: Cursor): Bytes {
    Format(c.updatedAt) + [COLON] + c.documentId
  }

  function Encode(c: Cursor): string {
    HexEncode(Text(c))
  }

  function Decode(token: string): Option<Cursor> {
    match HexDecode(token)
    case None => None
    case Some(text) =>
      if !Utf8(text) then None
      else
        match SplitOnce(text)
        case None => None
        case Some(parts) =>
          if parts.1 == [] then None
          else
            match ParseI64(parts.0)
            case None => None
            case Some(micros) =>
              if MIN_MICROS <= micros <= MAX_MICROS then Some(Cursor(micros, parts.1)) else None
  }

  /** What the types of the source promise of a cursor: a time the calendar covers and an id that is text. */
  predicate Typed(c: Cursor) {
    MIN_MICROS <= c.updatedAt <= MAX_MICROS && Utf8(c.documentId)
  }

  /** Decoding undoes encoding, exactly for the cursors whose id is not empty. */
  lemma CursorRoundTrip(c: Cursor)
    requires Typed(c)
    ensures Decode(Encode(c)) == Some(c) <==> c.documentId != []
    ensures c.documentId == [] ==> Decode(Encode(c)).None?
  {
    HexRoundTrip(Text(c));
    FormatParses(c.updatedAt);
    ParsedIsAscii(Format(c.updatedAt));
    SplitOnceIs(Text(c), Format(c.updatedAt), c.documentId);
    AsciiPrefix(Format(c.updatedAt) + [COLON], c.documentId);
  }

  /** Whatever decodes is a cursor the encoder could have emitted, so junk is refused: decoding, re-encoding and
      decoding again changes nothing. */
  lemma DecodedIsCanonical(token: string)
    requires Decode(token).Some?
    ensures Typed(Decode(token).value) && Decode(token).value.documentId != []
    ensures Decode(Encode(Decode(token).value)) == Decode(token)
  {
    var text := HexDecode(token).value;
    var parts := SplitOnce(text).value;
    SplitOnceIs(text, parts.0, parts.1);
    ParsedIsAscii(parts.0);
    AsciiPrefix(parts.0 + [COLON], parts.1);
    CursorRoundTrip(Decode(token).value);
  }

  /** Distinct cursors have distinct tokens. */
  lemma EncodeInjective(c: Cursor, d: Cursor)
    requires Typed(c) && Typed(d) && Encode(c) == Encode(d)
    ensures c == d
  {
    HexRoundTrip(Text(c));
    HexRoundTrip(Text(d));
    FormatParses(c.updatedAt);
    FormatParses(d.updatedAt);
    ParsedIsAscii(Format(c.updatedAt));
    ParsedIsAscii(Format(d.updatedAt));
    SplitOnceIs(Text(c), Format(c.updatedAt), c.documentId);
    SplitOnceIs(Text(d), Format(d.updatedAt), d.documentId);
  }
}
