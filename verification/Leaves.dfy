/** The texts of the field types that occupy one part of a message: decimal
    integers of bounded width, booleans and UUIDs. */
module Leaves {
  import opened Basics
  import opened Delimiters

  datatype Width = W32 | W64

  const MINUS: byte := 0x2d
  const PLUS: byte := 0x2b
  const ZERO: byte := 0x30
  const ONE: byte := 0x31

  function Limit(w: Width): nat {
    match w case W32 => 0x1_0000_0000 case W64 => 0x1_0000_0000_0000_0000
  }

  predicate FitsUint(n: int, w: Width) { 0 <= n < Limit(w) }

  predicate FitsInt(n: int, w: Width) { -(Limit(w) / 2) <= n < Limit(w) / 2 }

  predicate IsDigit(b: byte) { 0x30 <= b <= 0x39 }

  function FormatNat(n: nat): (s: Bytes)
    ensures |s| > 0 && forall i :: 0 <= i < |s| ==> IsDigit(s[i])
  {
    if n < 10 then [ZERO + n] else FormatNat(n / 10) + [ZERO + n % 10]
  }

  function FormatInt(n: int): Bytes {
    if n < 0 then [MINUS] + FormatNat(-n) else FormatNat(n)
  }

  /** The value of a non-empty string of decimal digits. */
  function ParseDigits(s: Bytes): Option<nat> {
    if s == [] || !IsDigit(s[|s| - 1]) then None
    else if |s| == 1 then Some(s[0] - ZERO)
    else match ParseDigits(s[..|s| - 1])
      case None => None
      case Some(n) => Some(10 * n + (s[|s| - 1] - ZERO))
  }

  function ParseUint(s: Bytes, w: Width): (r: Option<nat>)
    ensures r.Some? ==> FitsUint(r.value, w)
  {
    match ParseDigits(s)
    case None => None
    case Some(n) => if FitsUint(n, w) then Some(n) else None
  }

  function ParseInt(s: Bytes, w: Width): (r: Option<int>)
    ensures r.Some? ==> FitsInt(r.value, w)
  {
    if s == [] then None
    else
      var negative := s[0] == MINUS;
      var digits := if negative || s[0] == PLUS then s[1..] else s;
      match ParseDigits(digits)
      case None => None
      case Some(n) =>
        var signed: int := if negative then 0 - n else n;
        if FitsInt(signed, w) then Some(signed) else None
  }

  lemma {:induction false} ParseFormatNat(n: nat)
    ensures ParseDigits(FormatNat(n)) == Some(n)
  {
    if n >= 10 {
      ParseFormatNat(n / 10);
      assert FormatNat(n)[..|FormatNat(n)| - 1] == FormatNat(n / 10);
    }
  }

  lemma ParseSigned(n: nat, s: Bytes, w: Width)
    requires s == FormatNat(n)
    ensures ParseInt(s, w) == if FitsInt(n, w) then Some(n) else None
    ensures ParseInt([MINUS] + s, w) == if FitsInt(0 - n, w) then Some(0 - n) else None
  {
    ParseFormatNat(n);
    assert IsDigit(s[0]);
    assert ([MINUS] + s)[1..] == s;
  }

  /** Printing an integer and reading it at some width gives it back exactly
      when it fits that width. */
  lemma ParseFormatInt(n: int, w: Width)
    ensures ParseInt(FormatInt(n), w) == if FitsInt(n, w) then Some(n) else None
  {
    if n < 0 {
      ParseSigned(-n, FormatNat(-n), w);
    } else {
      ParseSigned(n, FormatNat(n), w);
    }
  }

  lemma ParseFormatUint(n: nat, w: Width)
    ensures ParseUint(FormatNat(n), w) == if FitsUint(n, w) then Some(n) else None
  {
    ParseFormatNat(n);
  }

  // ---------- Decimal numerals ----------

  /** A digit that stands n places from the end: its distance from the digit zero, n times tenfold. */
  function Place(b: byte, n: nat): int { if n == 0 then b - 0x30 else 10 * Place(b, n - 1) }

  predicate AllDigits(s: Bytes) { forall i :: 0 <= i < |s| ==> 0x30 <= s[i] <= 0x39 }

  function Positional(s: Bytes): int {
    if s == [] then 0 else Place(s[0], |s| - 1) + Positional(s[1..])
  }

  /** The one way to write a number in decimal. */
  predicate IsDecimal(s: Bytes, n: int) {
    s != [] && AllDigits(s) && (|s| > 1 ==> s[0] != 0x30) && Positional(s) == n
  }

  lemma {:induction false} PositionalSnoc(s: Bytes, b: byte)
    ensures Positional(s + [b]) == 10 * Positional(s) + (b - 0x30)
  {
    if s == [] {
      assert s + [b] == [b] && [b][1..] == [];
    } else {
      assert (s + [b])[0] == s[0] && (s + [b])[1..] == s[1..] + [b];
      PositionalSnoc(s[1..], b);
    }
  }

  /** The parser's value is the positional one. */
  lemma {:induction false} ParsedByPlace(s: Bytes)
    ensures ParseDigits(s) == if s != [] && AllDigits(s) then Some(Positional(s)) else None
  {
    if s != [] {
      var n := |s| - 1;
      assert s == s[..n] + [s[n]];
      PositionalSnoc(s[..n], s[n]);
      ParsedByPlace(s[..n]);
    }
  }

  lemma {:induction false} FormatNatIsDecimal(n: nat)
    ensures IsDecimal(FormatNat(n), n) && (n > 0 ==> FormatNat(n)[0] != 0x30)
  {
    if n < 10 {
      assert FormatNat(n)[1..] == [];
    } else {
      FormatNatIsDecimal(n / 10);
      PositionalSnoc(FormatNat(n / 10), ZERO + n % 10);
    }
  }

  /** A non-empty text that does not start with a zero is not zero. */
  lemma {:induction false} LeadingDigit(s: Bytes)
    requires s != [] && AllDigits(s)
    ensures 0 <= Positional(s) && (s[0] != 0x30 ==> Positional(s) > 0)
  {
    var n := |s| - 1;
    assert s == s[..n] + [s[n]];
    PositionalSnoc(s[..n], s[n]);
    if n > 0 {
      LeadingDigit(s[..n]);
    }
  }

  lemma {:induction false} DecimalIsFormatNat(s: Bytes, n: nat)
    requires IsDecimal(s, n)
    ensures s == FormatNat(n)
  {
    var k := |s| - 1;
    var front, last := s[..k], s[k];
    assert s == front + [last] && IsDigit(last);
    PositionalSnoc(front, last);
    if k > 0 {
      LeadingDigit(front);
      assert Positional(front) == n / 10 && last - 0x30 == n % 10;
      DecimalIsFormatNat(front, n / 10);
    } else {
      assert front == [];
    }
  }

  /** What an unsigned integer prints to: its decimal text, and no other. */
  lemma UintText(n: nat, s: Bytes)
    ensures s == FormatNat(n) <==> IsDecimal(s, n)
  {
    FormatNatIsDecimal(n);
    if IsDecimal(s, n) {
      DecimalIsFormatNat(s, n);
    }
  }

  /** The one way to write a number that may be negative. */
  predicate IsSignedDecimal(s: Bytes, n: int) {
    if n < 0 then s != [] && s[0] == 0x2d && IsDecimal(s[1..], -n) else IsDecimal(s, n)
  }

  /** What an integer prints to: the decimal text of its size, after a minus if negative. */
  lemma IntText(n: int, s: Bytes)
    ensures s == FormatInt(n) <==> IsSignedDecimal(s, n)
  {
    if n < 0 {
      UintText(-n, FormatNat(-n));
      assert FormatInt(n)[1..] == FormatNat(-n);
      if s != [] && s[0] == 0x2d && IsDecimal(s[1..], -n) {
        UintText(-n, s[1..]);
        assert s == [s[0]] + s[1..];
      }
    } else {
      UintText(n, s);
    }
  }

  /** Which texts are read as unsigned integers: digits, leading zeros included, whose
      value fits the width. */
  lemma UintAccepted(s: Bytes, w: Width)
    ensures ParseUint(s, w) ==
      if s != [] && AllDigits(s) && Positional(s) <= (if w.W32? then 4294967295 else 18446744073709551615)
      then Some(Positional(s)) else None
  {
    ParsedByPlace(s);
  }

  /** The digits of a text that may start with a sign. */
  function Unsigned(s: Bytes): Bytes {
    if s != [] && (s[0] == 0x2d || s[0] == 0x2b) then s[1..] else s
  }

  function SignedValue(s: Bytes): int {
    if s != [] && s[0] == 0x2d then 0 - Positional(Unsigned(s)) else Positional(Unsigned(s))
  }

  /** Which texts are read as integers: a sign or none, then digits, whose value fits. */
  lemma IntAccepted(s: Bytes, w: Width)
    ensures var n := SignedValue(s);
      ParseInt(s, w) ==
        if && Unsigned(s) != [] && AllDigits(Unsigned(s))
           && (if w.W32? then -2147483648 <= n <= 2147483647 else -9223372036854775808 <= n <= 9223372036854775807)
        then Some(n) else None
  {
    ParsedByPlace(Unsigned(s));
  }

  // ---------- Booleans and UUIDs ----------

  function FormatBool(b: bool): Bytes { if b then [ONE] else [ZERO] }

  function ParseBool(s: Bytes): Option<bool> {
    if s == [ZERO] then Some(false)
    else if s == [ONE] then Some(true)
    else None
  }

  function HexDigit(n: nat): byte
    requires n < 16
  {
    if n < 10 then 0x30 + n else 0x57 + n
  }

  function HexValue(b: byte): (r: Option<nat>)
    ensures r.Some? ==> r.value < 16
  {
    if 0x30 <= b <= 0x39 then Some(b - 0x30)
    else if 0x61 <= b <= 0x66 then Some(b - 0x57)
    else if 0x41 <= b <= 0x46 then Some(b - 0x37)
    else None
  }

  predicate IsDash(i: nat) { i == 8 || i == 13 || i == 18 || i == 23 }

  /** Dashes before position i of the 8-4-4-4-12 layout. */
  function DashesBefore(i: nat): nat {
    if i <= 8 then 0 else if i <= 13 then 1 else if i <= 18 then 2 else if i <= 23 then 3 else 4
  }

  /** Position of the first hex digit of byte k. */
  function HexPos(k: nat): (i: nat)
    requires k < 16
    ensures i + 1 < 36 && !IsDash(i) && !IsDash(i + 1)
    ensures i - DashesBefore(i) == 2 * k && i + 1 - DashesBefore(i + 1) == 2 * k + 1
  {
    2 * k + if k < 4 then 0 else if k < 6 then 1 else if k < 8 then 2 else if k < 10 then 3 else 4
  }

  /** Section 4 of RFC 9562: lower-case hex digits with four dashes. */
  function FormatUuid(u: Uuid): Bytes {
    seq(36, i requires 0 <= i < 36 =>
      if IsDash(i) then MINUS
      else
        var nibble := i - DashesBefore(i);
        HexDigit(if nibble % 2 == 0 then u[nibble / 2] / 16 else u[nibble / 2] % 16))
  }

  predicate IsUuidText(s: Bytes) {
    && |s| == 36
    && s[8] == s[13] == s[18] == s[23] == MINUS
    && forall k :: 0 <= k < 16 ==> HexValue(s[HexPos(k)]).Some? && HexValue(s[HexPos(k) + 1]).Some?
  }

  function ParseUuid(s: Bytes): Option<Uuid> {
    if IsUuidText(s)
    then Some(seq(16, k requires 0 <= k < 16 => 16 * HexValue(s[HexPos(k)]).value + HexValue(s[HexPos(k) + 1]).value))
    else None
  }

  /** The two digits of byte k. */
  lemma DigitsAt(u: Uuid, k: nat)
    requires k < 16
    ensures FormatUuid(u)[HexPos(k)] == HexDigit(u[k] / 16)
    ensures FormatUuid(u)[HexPos(k) + 1] == HexDigit(u[k] % 16)
  {
    assert (2 * k) / 2 == k && (2 * k + 1) / 2 == k;
  }

  lemma HexPair(u: Uuid, k: nat)
    requires k < 16
    ensures HexValue(FormatUuid(u)[HexPos(k)]) == Some(u[k] / 16)
    ensures HexValue(FormatUuid(u)[HexPos(k) + 1]) == Some(u[k] % 16)
  {
    DigitsAt(u, k);
  }

  lemma ParseFormatUuid(u: Uuid)
    ensures ParseUuid(FormatUuid(u)) == Some(u)
  {
    var s := FormatUuid(u);
    forall k | 0 <= k < 16
      ensures HexValue(s[HexPos(k)]) == Some(u[k] / 16) && HexValue(s[HexPos(k) + 1]) == Some(u[k] % 16)
    {
      HexPair(u, k);
    }
    forall k | 0 <= k < 16
      ensures 16 * HexValue(s[HexPos(k)]).value + HexValue(s[HexPos(k) + 1]).value == u[k]
    {
    }
    assert IsUuidText(s);
    var t := ParseUuid(s).value;
    forall k | 0 <= k < 16 ensures t[k] == u[k] {
      assert t[k] == 16 * HexValue(s[HexPos(k)]).value + HexValue(s[HexPos(k) + 1]).value;
    }
    assert t == u;
  }

  // The sixteen digits in lower and in upper case, and where each byte's pair of digits starts
  const LOWER_HEX: Bytes :=
    [0x30, 0x31, 0x32, 0x33, 0x34, 0x35, 0x36, 0x37, 0x38, 0x39, 0x61, 0x62, 0x63, 0x64, 0x65, 0x66]
  const UPPER_HEX: Bytes :=
    [0x30, 0x31, 0x32, 0x33, 0x34, 0x35, 0x36, 0x37, 0x38, 0x39, 0x41, 0x42, 0x43, 0x44, 0x45, 0x46]
  const PAIRS: seq<nat> := [0, 2, 4, 6, 9, 11, 14, 16, 19, 21, 24, 26, 28, 30, 32, 34]

  /** The 8-4-4-4-12 layout. */
  predicate HasDashes(s: Bytes) { |s| == 36 && s[8] == 0x2d && s[13] == 0x2d && s[18] == 0x2d && s[23] == 0x2d }

  predicate PairIs(s: Bytes, k: nat, high: byte, low: byte)
    requires |s| == 36 && k < 16
  {
    s[PAIRS[k]] == high && s[PAIRS[k] + 1] == low
  }

  lemma PairsAre(k: nat)
    requires k < 16
    ensures HexPos(k) == PAIRS[k]
  {
  }

  lemma HexDigitIs(n: nat)
    requires n < 16
    ensures HexDigit(n) == LOWER_HEX[n]
  {
  }

  lemma HexValueIs(b: byte, n: nat)
    requires n < 16
    ensures HexValue(b) == Some(n) <==> b == LOWER_HEX[n] || b == UPPER_HEX[n]
  {
  }

  /** Every position of the layout is a dash or belongs to one pair. */
  lemma Positions(i: nat)
    requires i < 36
    ensures IsDash(i) || exists k :: 0 <= k < 16 && (i == PAIRS[k] || i == PAIRS[k] + 1)
  {
    var k := (i - DashesBefore(i)) / 2;
    if !IsDash(i) {
      PairsAre(k);
    }
  }

  lemma TextHasPair(u: Uuid, k: nat)
    requires k < 16
    ensures PairIs(FormatUuid(u), k, LOWER_HEX[u[k] / 16], LOWER_HEX[u[k] % 16])
  {
    DigitsAt(u, k);
    PairsAre(k);
    HexDigitIs(u[k] / 16);
    HexDigitIs(u[k] % 16);
  }

  lemma TextHasPairs(u: Uuid)
    ensures HasDashes(FormatUuid(u))
    ensures forall k :: 0 <= k < 16 ==> PairIs(FormatUuid(u), k, LOWER_HEX[u[k] / 16], LOWER_HEX[u[k] % 16])
  {
    forall k | 0 <= k < 16 ensures PairIs(FormatUuid(u), k, LOWER_HEX[u[k] / 16], LOWER_HEX[u[k] % 16]) {
      TextHasPair(u, k);
    }
  }

  /** Lower-case digits, two for each byte in order, in five groups. */
  predicate IsUuidOf(s: Bytes, u: Uuid) {
    HasDashes(s) && forall k :: 0 <= k < 16 ==> PairIs(s, k, LOWER_HEX[u[k] / 16], LOWER_HEX[u[k] % 16])
  }

  /** What a UUID prints to. */
  lemma UuidText(u: Uuid, s: Bytes)
    ensures s == FormatUuid(u) <==> IsUuidOf(s, u)
  {
    var t := FormatUuid(u);
    TextHasPairs(u);
    if IsUuidOf(s, u) {
      forall i | 0 <= i < 36 ensures s[i] == t[i] {
        Positions(i);
        if !IsDash(i) {
          var k :| 0 <= k < 16 && (i == PAIRS[k] || i == PAIRS[k] + 1);
          assert PairIs(s, k, LOWER_HEX[u[k] / 16], LOWER_HEX[u[k] % 16]);
          assert PairIs(t, k, LOWER_HEX[u[k] / 16], LOWER_HEX[u[k] % 16]);
        }
      }
    }
  }

  predicate IsHexOf(b: byte, n: nat)
    requires n < 16
  {
    b == LOWER_HEX[n] || b == UPPER_HEX[n]
  }

  /** The pair of digits is read as the byte. */
  ghost predicate PairReads(s: Bytes, k: nat, b: byte)
    requires |s| == 36 && k < 16
  {
    var high, low := HexValue(s[HexPos(k)]), HexValue(s[HexPos(k) + 1]);
    high.Some? && low.Some? && 16 * high.value + low.value == b
  }

  lemma PairIsDigits(s: Bytes, k: nat, b: byte)
    requires |s| == 36 && k < 16
    ensures PairReads(s, k, b) <==> HexValue(s[HexPos(k)]) == Some(b / 16) && HexValue(s[HexPos(k) + 1]) == Some(b % 16)
  {
  }

  lemma PairReadsIs(s: Bytes, k: nat, b: byte)
    requires |s| == 36 && k < 16
    ensures PairReads(s, k, b) <==> IsHexOf(s[PAIRS[k]], b / 16) && IsHexOf(s[PAIRS[k] + 1], b % 16)
  {
    PairIsDigits(s, k, b);
    PairsAre(k);
    var high, low := s[PAIRS[k]], s[PAIRS[k] + 1];
    HexValueIs(high, b / 16);
    HexValueIs(low, b % 16);
  }

  lemma ParsedPairs(u: Uuid, s: Bytes)
    ensures ParseUuid(s) == Some(u) <==> HasDashes(s) && forall k :: 0 <= k < 16 ==> PairReads(s, k, u[k])
  {
    if HasDashes(s) && forall k :: 0 <= k < 16 ==> PairReads(s, k, u[k]) {
      forall k | 0 <= k < 16 ensures HexValue(s[HexPos(k)]).Some? && HexValue(s[HexPos(k) + 1]).Some? {
        assert PairReads(s, k, u[k]);
      }
      var t := ParseUuid(s).value;
      forall k | 0 <= k < 16 ensures t[k] == u[k] {
        assert PairReads(s, k, u[k]);
      }
      assert t == u;
    }
  }

  /** Which texts are read as a UUID: the same layout, digits of either case. */
  lemma UuidAccepted(u: Uuid, s: Bytes)
    ensures ParseUuid(s) == Some(u) <==>
      HasDashes(s) && forall k :: 0 <= k < 16 ==> IsHexOf(s[PAIRS[k]], u[k] / 16) && IsHexOf(s[PAIRS[k] + 1], u[k] % 16)
  {
    ParsedPairs(u, s);
    if HasDashes(s) {
      forall k | 0 <= k < 16
        ensures PairReads(s, k, u[k]) <==> IsHexOf(s[PAIRS[k]], u[k] / 16) && IsHexOf(s[PAIRS[k] + 1], u[k] % 16)
      {
        PairReadsIs(s, k, u[k]);
      }
    }
  }

  /** Booleans are one digit, and nothing else is read as one. */
  lemma BoolText(b: bool, s: Bytes)
    ensures ParseBool(s) == Some(b) <==> s == [if b then 0x31 else 0x30]
    ensures FormatBool(b) == [if b then 0x31 else 0x30]
  {
  }

  lemma MatchStart(s: Bytes, d: Bytes, i: nat)
    requires |d| > 0 && MatchAt(s, d, i)
    ensures s[i] == d[0]
  {
    assert s[i + 0] == d[0];
  }

  /** ASCII text contains neither delimiter. */
  lemma AsciiIsClean(s: Bytes)
    requires forall i :: 0 <= i < |s| ==> s[i] < 0x80
    ensures Clean(s)
  {
    forall d, i | d in {PARAM_DELIM, MESSAGE_DELIM} ensures !MatchAt(s, d, i) {
      if MatchAt(s, d, i) {
        MatchStart(s, d, i);
      }
    }
  }
}
