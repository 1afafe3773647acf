/** Opaque tokens: base64url without padding (RFC 4648, section 5), the page tokens of
    internal/engine/list_documents.go and internal/engine/list_chunks.go with their RFC 3339 timestamps
    (section 5.6), and the event cursor of internal/events/bus.go. */
module Tokens {
  import opened Bytes

  datatype Option<T> = None | Some(value: T)

  // ----- base64url -----

  function Digit(v: int): Byte
    requires 0 <= v < 64
  {
    if v < 26 then 65 + v else if v < 52 then 97 + v - 26
    else if v < 62 then 48 + v - 52 else if v == 62 then 45 else 95
  }

  function DigitValue(c: Byte): Option<int> {
    if 65 <= c < 91 then Some(c - 65)
    else if 97 <= c < 123 then Some(c - 97 + 26)
    else if 48 <= c < 58 then Some(c - 48 + 52)
    else if c == 45 then Some(62)
    else if c == 95 then Some(63)
    else None
  }

  /** The digits are capitals, small letters, numerals, hyphen and underscore (RFC 4648, section 5); each is
      read back as its value, and nothing else is a digit. */
  lemma DigitsAreUrlSafe(v: int, c: Byte)
    requires 0 <= v < 64
    ensures v < 26 ==> Digit(v) == 'A' as int + v
    ensures 26 <= v < 52 ==> Digit(v) == 'a' as int + (v - 26)
    ensures 52 <= v < 62 ==> Digit(v) == '0' as int + (v - 52)
    ensures Digit(62) == '-' as int && Digit(63) == '_' as int
    ensures DigitValue(c) == Some(v) <==> c == Digit(v)
  {
  }

  /** Three bytes are one number of 24 bits, and their four digits of six bits are that number. */
  lemma GroupIsNumber(a: Byte, b: Byte, c: Byte, rest: Bytes) returns (w: int, x: int, y: int, z: int)
    ensures 0 <= w < 64 && 0 <= x < 64 && 0 <= y < 64 && 0 <= z < 64
    ensures EncodeBytes([a, b, c] + rest) == [Digit(w), Digit(x), Digit(y), Digit(z)] + EncodeBytes(rest)
    ensures 262144 * w + 4096 * x + 64 * y + z == 65536 * a + 256 * b + c
  {
    assert ([a, b, c] + rest)[3..] == rest;
    w, x, y, z := a / 4, a % 4 * 16 + b / 16, b % 16 * 4 + c / 64, c % 64;
  }

  /** One or two bytes at the end are padded with zero bits, and take two or three digits. */
  lemma TailIsNumber(a: Byte, b: Byte) returns (w: int, x: int, y: int, z: int)
    ensures 0 <= w < 64 && 0 <= x < 64 && 0 <= y < 64 && 0 <= z < 64
    ensures EncodeBytes([a]) == [Digit(w), Digit(x)] && 64 * w + x == 16 * a
    ensures EncodeBytes([a, b]) == [Digit(w), Digit(y), Digit(z)] && 4096 * w + 64 * y + z == 4 * (256 * a + b)
  {
    w, x, y, z := a / 4, a % 4 * 16, a % 4 * 16 + b / 16, b % 16 * 4;
  }

  function EncodeBytes(bs: Bytes): Bytes {
    if |bs| == 0 then []
    else if |bs| == 1 then [Digit(bs[0] / 4), Digit(bs[0] % 4 * 16)]
    else if |bs| == 2 then [Digit(bs[0] / 4), Digit(bs[0] % 4 * 16 + bs[1] / 16), Digit(bs[1] % 16 * 4)]
    else
      [Digit(bs[0] / 4), Digit(bs[0] % 4 * 16 + bs[1] / 16), Digit(bs[1] % 16 * 4 + bs[2] / 64), Digit(bs[2] % 64)]
      + EncodeBytes(bs[3..])
  }

  /** The decoder skips line breaks. */
  function WithoutBreaks(s: Bytes): Bytes {
    if s == [] then [] else (if s[0] == 10 || s[0] == 13 then [] else [s[0]]) + WithoutBreaks(s[1..])
  }

  function Joined(a: Option<int>, b: Option<int>, shift: int, cut: int): Option<Byte>
    requires shift > 0 && cut > 0
  {
    if a.Some? && b.Some? then Some((a.value * shift + b.value / cut) % 256) else None
  }

  /** The bits past the last whole byte are not looked at. */
  function DecodeGroups(s: Bytes): Option<Bytes>
    decreases |s|
  {
    if |s| == 0 then Some([])
    else if |s| == 1 then None
    else
      var a := Joined(DigitValue(s[0]), DigitValue(s[1]), 4, 16);
      if a.None? then None
      else if |s| == 2 then Some([a.value])
      else
        var b := Joined(DigitValue(s[1]), DigitValue(s[2]), 16, 4);
        if b.None? then None
        else if |s| == 3 then Some([a.value, b.value])
        else
          var c := Joined(DigitValue(s[2]), DigitValue(s[3]), 64, 1);
          var rest := DecodeGroups(s[4..]);
          if c.None? || rest.None? then None else Some([a.value, b.value, c.value] + rest.value)
  }

  function DecodeBytes(s: Bytes): Option<Bytes> {
    DecodeGroups(WithoutBreaks(s))
  }

  lemma DigitRoundTrip(v: int)
    requires 0 <= v < 64
    ensures DigitValue(Digit(v)) == Some(v) && Digit(v) != 10 && Digit(v) != 13
  {
  }

  lemma Recombine(high: int, low: int, unit: int, r: int, scale: int)
    requires unit > 0 && scale > 0 && 0 <= r < scale && 0 <= low
    ensures high * unit + (low * scale + r) / scale == high * unit + low
  {
    assert (low * scale + r) / scale == low by {
      assert low * scale <= low * scale + r < (low + 1) * scale;
      QuotientBetween(low * scale + r, scale, low);
    }
  }

  lemma QuotientBetween(n: int, d: int, q: int)
    requires d > 0 && q * d <= n < (q + 1) * d
    ensures n / d == q
  {
    var m := n / d;
    assert m * d <= n < (m + 1) * d;
    Scaled(m + 1, q, d);
    Scaled(q + 1, m, d);
  }

  lemma Scaled(x: int, y: int, d: int)
    requires d > 0
    ensures x <= y ==> x * d <= y * d
  {
    if x <= y {
      assert y * d - x * d == (y - x) * d;
    }
  }

  lemma LowByte(q: int, b: Byte)
    ensures (q * 256 + b) % 256 == b
  {
  }

  /** Two digits are joined to a byte by shifting the first and cutting the second. */
  lemma JoinedDigits(x: int, y: int, shift: int, cut: int)
    requires 0 <= x < 64 && 0 <= y < 64 && shift > 0 && cut > 0
    ensures Joined(DigitValue(Digit(x)), DigitValue(Digit(y)), shift, cut) == Some((x * shift + y / cut) % 256)
  {
    DigitRoundTrip(x);
    DigitRoundTrip(y);
  }

  /** The two digits that carry a byte give it back, whatever else the second one carries. */
  lemma FirstByte(a: Byte, r: int)
    requires 0 <= r < 16
    ensures Joined(DigitValue(Digit(a / 4)), DigitValue(Digit(a % 4 * 16 + r)), 4, 16) == Some(a)
  {
    JoinedDigits(a / 4, a % 4 * 16 + r, 4, 16);
    Recombine(a / 4, a % 4, 4, r, 16);
    LowByte(0, a);
  }

  lemma SecondByte(q: int, b: Byte, r: int)
    requires 0 <= q < 4 && 0 <= r < 4
    ensures Joined(DigitValue(Digit(q * 16 + b / 16)), DigitValue(Digit(b % 16 * 4 + r)), 16, 4) == Some(b)
  {
    var h, l := b / 16, b % 16;
    assert b == h * 16 + l;
    JoinedDigits(q * 16 + h, l * 4 + r, 16, 4);
    Recombine(q * 16 + h, l, 16, r, 4);
    LowByte(q, b);
  }

  lemma ThirdByte(q: int, c: Byte)
    requires 0 <= q < 16
    ensures Joined(DigitValue(Digit(q * 4 + c / 64)), DigitValue(Digit(c % 64)), 64, 1) == Some(c)
  {
    var h, l := c / 64, c % 64;
    assert c == h * 64 + l;
    JoinedDigits(q * 4 + h, l, 64, 1);
    LowByte(q, c);
  }

  lemma OneByte(a: Byte)
    ensures DecodeGroups([Digit(a / 4), Digit(a % 4 * 16)]) == Some([a])
  {
    FirstByte(a, 0);
  }

  lemma TwoBytes(a: Byte, b: Byte)
    ensures DecodeGroups([Digit(a / 4), Digit(a % 4 * 16 + b / 16), Digit(b % 16 * 4)]) == Some([a, b])
  {
    FirstByte(a, b / 16);
    SecondByte(a % 4, b, 0);
  }

  lemma FullGroup(a: Byte, b: Byte, c: Byte, s: Bytes, rest: Bytes)
    requires |s| >= 4 && DecodeGroups(s[4..]) == Some(rest)
    requires s[0] == Digit(a / 4) && s[1] == Digit(a % 4 * 16 + b / 16)
    requires s[2] == Digit(b % 16 * 4 + c / 64) && s[3] == Digit(c % 64)
    ensures DecodeGroups(s) == Some([a, b, c] + rest)
  {
    FirstByte(a, b / 16);
    SecondByte(a % 4, b, c / 64);
    ThirdByte(b % 16, c);
  }

  lemma {:induction false} GroupsRoundTrip(bs: Bytes)
    ensures DecodeGroups(EncodeBytes(bs)) == Some(bs)
    decreases |bs|
  {
    if |bs| >= 3 {
      var s := EncodeBytes(bs);
      GroupsRoundTrip(bs[3..]);
      assert s[4..] == EncodeBytes(bs[3..]);
      FullGroup(bs[0], bs[1], bs[2], s, bs[3..]);
      assert bs == [bs[0], bs[1], bs[2]] + bs[3..];
    } else if |bs| == 1 {
      OneByte(bs[0]);
      assert bs == [bs[0]];
    } else if |bs| == 2 {
      TwoBytes(bs[0], bs[1]);
      assert bs == [bs[0], bs[1]];
    }
  }

  lemma {:induction false} NoBreaks(s: Bytes)
    requires forall i :: 0 <= i < |s| ==> s[i] != 10 && s[i] != 13
    ensures WithoutBreaks(s) == s
    decreases |s|
  {
    if s != [] {
      NoBreaks(s[1..]);
    }
  }

  lemma {:induction false} EncodedHasNoBreaks(bs: Bytes)
    ensures forall i :: 0 <= i < |EncodeBytes(bs)| ==> EncodeBytes(bs)[i] != 10 && EncodeBytes(bs)[i] != 13
    decreases |bs|
  {
    if |bs| >= 3 {
      EncodedHasNoBreaks(bs[3..]);
    }
  }

  lemma Base64RoundTrip(bs: Bytes)
    ensures DecodeBytes(EncodeBytes(bs)) == Some(bs)
  {
    EncodedHasNoBreaks(bs);
    NoBreaks(EncodeBytes(bs));
    GroupsRoundTrip(bs);
  }

  // ----- Numbers -----

  predicate IsDigit(c: Byte) { 48 <= c < 58 }

  predicate AllDigits(s: Bytes) { forall i :: 0 <= i < |s| ==> IsDigit(s[i]) }

  function ParseDigits(s: Bytes): nat
    requires AllDigits(s)
  {
    if s == [] then 0 else ParseDigits(s[..|s| - 1]) * 10 + (s[|s| - 1] - 48)
  }

  function Decimal(n: nat): (s: Bytes)
    ensures s != [] && AllDigits(s)
  {
    if n < 10 then [48 + n] else Decimal(n / 10) + [48 + n % 10]
  }

  lemma {:induction false} DecimalRoundTrip(n: nat)
    ensures ParseDigits(Decimal(n)) == n
    decreases n
  {
    if n >= 10 {
      DecimalRoundTrip(n / 10);
      assert Decimal(n)[..|Decimal(n)| - 1] == Decimal(n / 10);
    } else {
      assert Decimal(n)[..0] == [];
    }
  }

  function Itoa(n: int): Bytes {
    if n < 0 then [45] + Decimal(-n) else Decimal(n)
  }

  predicate Int64(n: int) {
    -0x8000_0000_0000_0000 <= n < 0x8000_0000_0000_0000
  }

  /** An optional sign, then digits, within 64 bits. */
  function Atoi(s: Bytes): Option<int> {
    var body := if s != [] && (s[0] == 45 || s[0] == 43) then s[1..] else s;
    if body == [] || !AllDigits(body) then None
    else
      var n: int := if s[0] == 45 then 0 - ParseDigits(body) else ParseDigits(body);
      if Int64(n) then Some(n) else None
  }

  lemma AtoiRoundTrip(n: int)
    ensures Atoi(Itoa(n)) == if Int64(n) then Some(n) else None
  {
    var magnitude := if n < 0 then -n else n;
    DecimalRoundTrip(magnitude);
    if n < 0 {
      SignedParse(Decimal(magnitude));
    } else {
      PlainParse(Decimal(magnitude));
    }
  }

  lemma SignedParse(d: Bytes)
    requires d != [] && AllDigits(d)
    ensures Atoi([45] + d) == if Int64(0 - ParseDigits(d)) then Some(0 - ParseDigits(d)) else None
  {
    assert ([45] + d)[1..] == d;
  }

  lemma PlainParse(d: Bytes)
    requires d != [] && AllDigits(d)
    ensures Atoi(d) == if Int64(ParseDigits(d)) then Some(ParseDigits(d)) else None
  {
    assert IsDigit(d[0]);
  }

  // ----- Separator -----

  const Separator: Byte := 0x1f

  predicate Unseparated(s: Bytes) { forall i :: 0 <= i < |s| ==> s[i] != Separator }

  /** The parts before and after the first separator. */
  function SplitFirst(s: Bytes): Option<(Bytes, Bytes)> {
    if s == [] then None
    else if s[0] == Separator then Some(([], s[1..]))
    else match SplitFirst(s[1..])
      case None => None
      case Some(p) => Some(([s[0]] + p.0, p.1))
  }

  lemma {:induction false} SplitJoined(a: Bytes, b: Bytes)
    requires Unseparated(a)
    ensures SplitFirst(a + [Separator] + b) == Some((a, b))
    decreases |a|
  {
    var s := a + [Separator] + b;
    if a == [] {
      assert s[1..] == b;
    } else {
      assert s[1..] == a[1..] + [Separator] + b;
      SplitJoined(a[1..], b);
      assert a == [a[0]] + a[1..];
    }
  }

  // ----- Chunk page tokens -----

  function EncodeChunkToken(index: int, id: Bytes): Bytes {
    EncodeBytes(Itoa(index) + [Separator] + id)
  }

  function DecodeChunkToken(s: Bytes): Option<(int, Bytes)> {
    match DecodeBytes(s)
    case None => None
    case Some(raw) =>
      match SplitFirst(raw)
      case None => None
      case Some(p) =>
        var index := Atoi(p.0);
        if index.None? || p.1 == [] then None else Some((index.value, p.1))
  }

  /** A chunk token gives back what it was made of iff the id is not empty and the index has 64 bits. */
  lemma ChunkTokenRoundTrip(index: int, id: Bytes)
    ensures DecodeChunkToken(EncodeChunkToken(index, id))
            == if id != [] && Int64(index) then Some((index, id)) else None
  {
    Base64RoundTrip(Itoa(index) + [Separator] + id);
    assert Unseparated(Itoa(index)) by {
      assert AllDigits(Decimal(if index < 0 then -index else index));
    }
    SplitJoined(Itoa(index), id);
    AtoiRoundTrip(index);
  }

  // ----- Timestamps -----

  /** A UTC instant to the nanosecond. */
  datatype Stamp = Stamp(year: int, month: int, day: int, hour: int, minute: int, second: int, nano: int)

  function DaysIn(year: int, month: int): int {
    if month == 2 then (if year % 4 == 0 && (year % 100 != 0 || year % 400 == 0) then 29 else 28)
    else if month == 4 || month == 6 || month == 9 || month == 11 then 30 else 31
  }

  /** A date and time with a four-digit year. */
  predicate Writable(t: Stamp) {
    && 0 <= t.year <= 9999 && 1 <= t.month <= 12 && 1 <= t.day <= DaysIn(t.year, t.month)
    && 0 <= t.hour < 24 && 0 <= t.minute < 60 && 0 <= t.second < 60 && 0 <= t.nano < 1_000_000_000
  }

  function Padded(n: nat, width: nat): (s: Bytes)
    ensures |s| == width && AllDigits(s)
  {
    if width == 0 then [] else Padded(n / 10, width - 1) + [48 + n % 10]
  }

  function Power10(w: nat): nat {
    if w == 0 then 1 else 10 * Power10(w - 1)
  }

  lemma {:induction false} PaddedRoundTrip(n: nat, width: nat)
    requires n < Power10(width)
    ensures ParseDigits(Padded(n, width)) == n
    decreases width
  {
    if width > 0 {
      PaddedRoundTrip(n / 10, width - 1);
      assert Padded(n, width)[..width - 1] == Padded(n / 10, width - 1);
    }
  }

  function Zeros(n: nat): (s: Bytes)
    ensures |s| == n && AllDigits(s)
  {
    if n == 0 then [] else Zeros(n - 1) + [48]
  }

  function TrimZeros(s: Bytes): (r: Bytes)
    ensures r <= s
  {
    if s != [] && s[|s| - 1] == 48 then TrimZeros(s[..|s| - 1]) else s
  }

  lemma {:induction false} TrimmedZeros(s: Bytes)
    ensures TrimZeros(s) + Zeros(|s| - |TrimZeros(s)|) == s
    decreases |s|
  {
    if s != [] && s[|s| - 1] == 48 {
      TrimmedZeros(s[..|s| - 1]);
    }
  }

  /** The fraction without trailing zeros, and none at all when it is zero. */
  function Fraction(nano: nat): Bytes {
    if nano == 0 then [] else [46] + TrimZeros(Padded(nano, 9))
  }

  function FormatStamp(t: Stamp): Bytes
    requires Writable(t)
  {
    Date(t) + [84] + Clock(t) + Fraction(t.nano) + [90]
  }

  /** A time is written year-month-dayThour:minute:second, its fields in decimal, then a fraction of the
      second if there is one, then Z. */
  lemma StampFields(t: Stamp)
    requires Writable(t)
    ensures var s := FormatStamp(t);
            && |s| >= 20 && s[4] == s[7] == '-' as int && s[10] == 'T' as int && s[13] == s[16] == ':' as int
            && s[|s| - 1] == 'Z' as int && (t.nano == 0 <==> |s| == 20) && (t.nano != 0 ==> s[19] == '.' as int)
    ensures var s := FormatStamp(t);
            && Field(s, 0, 4) == t.year && Field(s, 5, 2) == t.month && Field(s, 8, 2) == t.day
            && Field(s, 11, 2) == t.hour && Field(s, 14, 2) == t.minute && Field(s, 17, 2) == t.second
  {
    var s, d, c := FormatStamp(t), Date(t), Clock(t);
    StampParts(d, c, Fraction(t.nano));
    assert d[4] == s[4] && d[7] == s[7] && c[2] == s[13] && c[5] == s[16];
    DateFields(t);
    ClockFields(t);
    DateWithin(t, s);
    ClockWithin(t, s);
  }

  lemma DateWithin(t: Stamp, s: Bytes)
    requires Writable(t) && |s| >= 20 && s[..10] == Date(t)
    ensures Field(s, 0, 4) == t.year && Field(s, 5, 2) == t.month && Field(s, 8, 2) == t.day
  {
    DateFields(t);
    FieldWithin(s, 0, Date(t), 0, 4);
    FieldWithin(s, 0, Date(t), 5, 2);
    FieldWithin(s, 0, Date(t), 8, 2);
  }

  lemma ClockWithin(t: Stamp, s: Bytes)
    requires Writable(t) && |s| >= 20 && s[11..19] == Clock(t)
    ensures Field(s, 11, 2) == t.hour && Field(s, 14, 2) == t.minute && Field(s, 17, 2) == t.second
  {
    ClockFields(t);
    FieldWithin(s, 11, Clock(t), 0, 2);
    FieldWithin(s, 11, Clock(t), 3, 2);
    FieldWithin(s, 11, Clock(t), 6, 2);
  }

  lemma FieldWithin(s: Bytes, lo: nat, part: Bytes, at: nat, width: nat)
    requires lo + |part| <= |s| && s[lo..lo + |part|] == part && at + width <= |part|
    ensures Field(s, lo + at, width) == Field(part, at, width)
  {
    SliceOfSlice(s, lo, lo + |part|, at, at + width);
  }

  function Date(t: Stamp): (s: Bytes)
    requires Writable(t)
    ensures |s| == 10 && Unseparated(s)
  {
    Padded(t.year, 4) + [45] + Padded(t.month, 2) + [45] + Padded(t.day, 2)
  }

  function Clock(t: Stamp): (s: Bytes)
    requires Writable(t)
    ensures |s| == 8 && Unseparated(s)
  {
    Padded(t.hour, 2) + [58] + Padded(t.minute, 2) + [58] + Padded(t.second, 2)
  }

  /** The nanoseconds of an optional fraction; digits past the ninth are dropped. */
  function ParseFraction(f: Bytes): Option<int> {
    if f == [] then Some(0)
    else if f[0] != 46 || |f| == 1 || !AllDigits(f[1..]) then None
    else
      var d := if |f| > 10 then f[1..10] else f[1..];
      Some(ParseDigits(d + Zeros(9 - |d|)))
  }

  function Field(s: Bytes, at: nat, width: nat): int {
    if at + width <= |s| && AllDigits(s[at..at + width]) then ParseDigits(s[at..at + width]) else -1
  }

  /** Of the accepted forms, those in UTC, which are all that the formatter writes. */
  function ParseStamp(s: Bytes): Option<Stamp> {
    if |s| < 20 || s[10] != 84 || s[|s| - 1] != 90 then None
    else
      var d, c, nano := s[..10], s[11..19], ParseFraction(s[19..|s| - 1]);
      if nano.None? || d[4] != 45 || d[7] != 45 || c[2] != 58 || c[5] != 58 then None
      else
        var t := Stamp(Field(d, 0, 4), Field(d, 5, 2), Field(d, 8, 2),
                       Field(c, 0, 2), Field(c, 3, 2), Field(c, 6, 2), nano.value);
        if Writable(t) then Some(t) else None
  }

  lemma FractionRoundTrip(nano: nat)
    requires nano < 1_000_000_000
    ensures ParseFraction(Fraction(nano)) == Some(nano)
  {
    if nano > 0 {
      var all := Padded(nano, 9);
      TrimmedZeros(all);
      Billion();
      PaddedRoundTrip(nano, 9);
      TrimmedAway(all);
      SomeFraction(all, TrimZeros(all));
    }
  }

  lemma TrimmedAway(s: Bytes)
    requires AllDigits(s)
    ensures TrimZeros(s) == [] ==> ParseDigits(s) == 0
  {
    TrimmedZeros(s);
    ZerosAreZero(|s|);
    if TrimZeros(s) == [] {
      assert [] + Zeros(|s|) == Zeros(|s|);
    }
  }

  lemma SomeFraction(all: Bytes, d: Bytes)
    requires |all| == 9 && AllDigits(all)
    requires d != [] && d <= all && d + Zeros(9 - |d|) == all
    ensures ParseFraction([46] + d) == Some(ParseDigits(all))
  {
    assert ([46] + d)[1..] == d;
  }

  lemma Billion()
    ensures Power10(9) == 1_000_000_000 && Power10(4) == 10_000 && Power10(2) == 100
  {
    assert Power10(2) == 100;
    assert Power10(4) == 100 * Power10(2);
    assert Power10(6) == 100 * Power10(4);
    assert Power10(8) == 100 * Power10(6);
  }

  lemma {:induction false} ZerosAreZero(n: nat)
    ensures ParseDigits(Zeros(n)) == 0
    decreases n
  {
    if n > 0 {
      ZerosAreZero(n - 1);
      assert Zeros(n)[..n - 1] == Zeros(n - 1);
    }
  }

  lemma FieldRoundTrip(s: Bytes, at: nat, width: nat, n: nat)
    requires at + width <= |s| && s[at..at + width] == Padded(n, width) && n < Power10(width)
    ensures Field(s, at, width) == n
  {
    PaddedRoundTrip(n, width);
  }

  lemma DateFields(t: Stamp)
    requires Writable(t)
    ensures Date(t)[4] == 45 && Date(t)[7] == 45
    ensures Field(Date(t), 0, 4) == t.year && Field(Date(t), 5, 2) == t.month && Field(Date(t), 8, 2) == t.day
  {
    var s := Date(t);
    Billion();
    assert s[0..4] == Padded(t.year, 4) && s[5..7] == Padded(t.month, 2) && s[8..10] == Padded(t.day, 2);
    FieldRoundTrip(s, 0, 4, t.year);
    FieldRoundTrip(s, 5, 2, t.month);
    FieldRoundTrip(s, 8, 2, t.day);
  }

  lemma ClockFields(t: Stamp)
    requires Writable(t)
    ensures Clock(t)[2] == 58 && Clock(t)[5] == 58
    ensures Field(Clock(t), 0, 2) == t.hour && Field(Clock(t), 3, 2) == t.minute && Field(Clock(t), 6, 2) == t.second
  {
    var s := Clock(t);
    Billion();
    assert s[0..2] == Padded(t.hour, 2) && s[3..5] == Padded(t.minute, 2) && s[6..8] == Padded(t.second, 2);
    FieldRoundTrip(s, 0, 2, t.hour);
    FieldRoundTrip(s, 3, 2, t.minute);
    FieldRoundTrip(s, 6, 2, t.second);
  }

  lemma StampParts(d: Bytes, c: Bytes, f: Bytes)
    requires |d| == 10 && |c| == 8
    ensures var s := d + [84] + c + f + [90];
            && |s| == 20 + |f| && s[..10] == d
            && s[10] == 84 && s[11..19] == c && s[19..|s| - 1] == f && s[|s| - 1] == 90
  {
  }

  lemma StampRoundTrip(t: Stamp)
    requires Writable(t)
    ensures ParseStamp(FormatStamp(t)) == Some(t)
  {
    StampParts(Date(t), Clock(t), Fraction(t.nano));
    DateFields(t);
    ClockFields(t);
    FractionRoundTrip(t.nano);
  }

  // ----- Document page tokens -----

  function EncodeDocToken(t: Stamp, id: Bytes): Bytes
    requires Writable(t)
  {
    EncodeBytes(FormatStamp(t) + [Separator] + id)
  }

  function DecodeDocToken(s: Bytes): Option<(Stamp, Bytes)> {
    match DecodeBytes(s)
    case None => None
    case Some(raw) =>
      match SplitFirst(raw)
      case None => None
      case Some(p) =>
        var t := ParseStamp(p.0);
        if t.None? || p.1 == [] then None else Some((t.value, p.1))
  }

  lemma StampUnseparated(t: Stamp)
    requires Writable(t)
    ensures Unseparated(FormatStamp(t))
  {
    var f := Fraction(t.nano);
    assert Unseparated(f) by {
      if t.nano > 0 {
        assert TrimZeros(Padded(t.nano, 9)) <= Padded(t.nano, 9);
      }
    }
  }

  /** A document token gives back what it was made of iff the id is not empty. */
  lemma DocTokenRoundTrip(t: Stamp, id: Bytes)
    requires Writable(t)
    ensures DecodeDocToken(EncodeDocToken(t, id)) == if id != [] then Some((t, id)) else None
  {
    Base64RoundTrip(FormatStamp(t) + [Separator] + id);
    StampUnseparated(t);
    SplitJoined(FormatStamp(t), id);
    StampRoundTrip(t);
  }

  // ----- Event cursors -----

  function LittleEndian(n: nat, width: nat): (s: Bytes)
    ensures |s| == width
  {
    if width == 0 then [] else [n % 256] + LittleEndian(n / 256, width - 1)
  }

  /** A number below 256 is its own first byte, the others are zero; 256 times a number is that number one
      byte further on. */
  lemma {:induction false} LowByteFirst(n: nat, width: nat, low: nat)
    requires width > 0 && low < 256
    ensures LittleEndian(low, width)[0] == low && forall i :: 0 < i < width ==> LittleEndian(low, width)[i] == 0
    ensures LittleEndian(256 * n + low, width) == [low] + LittleEndian(n, width - 1)
  {
    assert (256 * n + low) % 256 == low && (256 * n + low) / 256 == n;
    if width > 1 {
      LowByteFirst(0, width - 1, 0);
    }
  }

  function FromLittleEndian(s: Bytes): nat {
    if s == [] then 0 else s[0] + 256 * FromLittleEndian(s[1..])
  }

  function Power256(w: nat): nat {
    if w == 0 then 1 else 256 * Power256(w - 1)
  }

  lemma {:induction false} LittleEndianRoundTrip(n: nat, width: nat)
    requires n < Power256(width)
    ensures FromLittleEndian(LittleEndian(n, width)) == n
    decreases width
  {
    if width > 0 {
      LittleEndianRoundTrip(n / 256, width - 1);
      assert LittleEndian(n, width)[1..] == LittleEndian(n / 256, width - 1);
    }
  }

  lemma NextDigit(all: Bytes, b: Bytes, rest: nat, width: nat)
    requires width > 0 && Encoding(all, b, rest, width)
    ensures Encoding(all, b + [rest % 256], rest / 256, width - 1)
  {
    assert b + ([rest % 256] + LittleEndian(rest / 256, width - 1))
           == (b + [rest % 256]) + LittleEndian(rest / 256, width - 1);
  }

  method EncodeCursor(n: nat) returns (s: Bytes)
    ensures s == EncodeBytes(LittleEndian(n, 8))
  {
    var b: Bytes, rest := [], n;
    ghost var all := LittleEndian(n, 8);
    for i := 0 to 8
      invariant |b| == i && Encoding(all, b, rest, 8 - i)
    {
      NextDigit(all, b, rest, 8 - i);
      b := b + [rest % 256];
      rest := rest / 256;
    }
    EncodingEnds(all, b, rest);
    s := EncodeBytes(b);
  }

  /** What is still to write of the cursor's bytes. */
  ghost predicate Encoding(all: Bytes, b: Bytes, rest: nat, width: nat) {
    all == b + LittleEndian(rest, width)
  }

  lemma EncodingEnds(all: Bytes, b: Bytes, rest: nat)
    requires Encoding(all, b, rest, 0)
    ensures all == b
  {
    assert b + [] == b;
  }

  method DecodeCursor(s: Bytes) returns (n: nat, ok: bool)
    ensures ok <==> DecodeBytes(s).Some? && |DecodeBytes(s).value| == 8
    ensures ok ==> n == FromLittleEndian(DecodeBytes(s).value)
    ensures !ok ==> n == 0
  {
    var b := DecodeBytes(s);
    if b.None? || |b.value| != 8 {
      return 0, false;
    }
    n := ReadLittleEndian(b.value);
    ok := true;
  }

  method ReadLittleEndian(b: Bytes) returns (n: nat)
    requires |b| == 8
    ensures n == FromLittleEndian(b)
  {
    n := 0;
    for i := 0 to 8
      invariant n == FromLittleEndian(b[..i])
    {
      NextByte(b, i);
      n := n + b[i] * Power256(i);
    }
    assert b[..8] == b;
  }

  lemma {:induction false} NextByte(b: Bytes, i: nat)
    requires i < |b|
    ensures FromLittleEndian(b[..i + 1]) == FromLittleEndian(b[..i]) + b[i] * Power256(i)
    decreases i
  {
    if i == 0 {
      assert b[..1] == [b[0]] && b[..1][1..] == [];
    } else {
      var rest := b[1..];
      NextByte(rest, i - 1);
      assert b[..i + 1][1..] == rest[..i] && b[..i][1..] == rest[..i - 1];
      assert 256 * (b[i] * Power256(i - 1)) == b[i] * (256 * Power256(i - 1));
    }
  }

  /** Every 64-bit sequence number survives its cursor. */
  method CursorRoundTrip(n: nat) returns (back: nat, ok: bool)
    requires n < 0x1_0000_0000_0000_0000
    ensures ok && back == n
  {
    var s := EncodeCursor(n);
    back, ok := DecodeCursor(s);
    Base64RoundTrip(LittleEndian(n, 8));
    SixtyFourBits();
    LittleEndianRoundTrip(n, 8);
  }

  lemma SixtyFourBits()
    ensures Power256(8) == 0x1_0000_0000_0000_0000
  {
    assert Power256(2) == 65536;
    assert Power256(4) == 65536 * Power256(2);
    assert Power256(6) == 65536 * Power256(4);
    assert Power256(8) == 65536 * Power256(6);
  }
}
