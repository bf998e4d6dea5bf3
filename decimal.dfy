/**
 * Decimal integers as Go writes and reads them: the `%d` verb of `fmt`
 * (used in the provider's error messages) and `strconv.Atoi` (used to read
 * a port from the environment and ids given to `terraform import`).
 * Go's `int` is 64 bits wide here.
 */
module Decimal {

  const MAX_INT := 0x7fff_ffff_ffff_ffff
  const MIN_INT := -0x8000_0000_0000_0000
  const MAX_UINT := 0xffff_ffff_ffff_ffff

  predicate IsDigit(c: char)
  {
    '0' <= c <= '9'
  }

  predicate AllDigits(ds: string)
  {
    forall i :: 0 <= i < |ds| ==> IsDigit(ds[i])
  }

  function DigitChar(d: int): char
    requires 0 <= d < 10
  {
    "0123456789"[d]
  }

  /** The value of a string of decimal digits (most significant first). */
  function DigitsValue(ds: string): nat
    requires AllDigits(ds)
  {
    if ds == [] then 0
    else DigitsValue(ds[..|ds| - 1]) * 10 + (ds[|ds| - 1] as int - '0' as int)
  }

  /** The digits of `n` without leading zeros ("0" for zero). */
  function FormatNat(n: nat): (s: string)
    ensures s != [] && AllDigits(s)
  {
    if n < 10 then [DigitChar(n)] else FormatNat(n / 10) + [DigitChar(n % 10)]
  }

  /** `fmt.Sprintf("%d", n)`: a minus sign for negative values, then the digits. */
  function FormatInt(n: int): string
  {
    if n < 0 then "-" + FormatNat(-n) else FormatNat(n)
  }

  /** The outcome of `strconv.Atoi`: the value it returns and whether its error is nil. */
  datatype Parsed = Parsed(value: int, ok: bool)

  /** The digits after an optional leading sign. */
  function Unsigned(s: string): string
  {
    if |s| > 0 && (s[0] == '-' || s[0] == '+') then s[1..] else s
  }

  /** How the digit loop of `strconv.ParseUint` ends. */
  datatype Scan = Syntax | Overflow | Value(n: nat)

  /**
   * The digit loop of `strconv.ParseUint` in base 10 with a 64-bit
   * accumulator `acc`: a non-digit is a syntax error, and the accumulator
   * reports a range error the moment it passes 2^64 - 1, before any later
   * character is looked at.
   */
  function ParseUint(ds: string, acc: nat): Scan
    decreases |ds|
  {
    if ds == [] then Value(acc)
    else if !IsDigit(ds[0]) then Syntax
    else
      var n := acc * 10 + (ds[0] as int - '0' as int);
      if n > MAX_UINT then Overflow else ParseUint(ds[1..], n)
  }

  /**
   * `strconv.Atoi`: an optional sign followed by at least one decimal digit.
   * A syntax error returns 0.  An overflow of the unsigned loop, or a value
   * beyond the signed 64-bit range, returns the bound on the sign's side;
   * both come with a non-nil error.
   */
  function Atoi(s: string): Parsed
  {
    var ds := Unsigned(s);
    var negative := |s| > 0 && s[0] == '-';
    if ds == [] then Parsed(0, false)
    else
      match ParseUint(ds, 0)
      case Syntax => Parsed(0, false)
      case Overflow => Parsed(if negative then MIN_INT else MAX_INT, false)
      case Value(u) =>
        var v: int := if negative then -(u as int) else u;
        if v > MAX_INT then Parsed(MAX_INT, false)
        else if v < MIN_INT then Parsed(MIN_INT, false)
        else Parsed(v, true)
  }

  /**
   * The text of `Atoi`'s error: the input quoted, then the reason.  Go
   * escapes non-printable characters inside the quotes; here the input is
   * quoted as is.
   */
  function AtoiError(s: string): string
  {
    "strconv.Atoi: parsing \"" + s + "\": " + Reason(Atoi(s))
  }

  /** A syntax error returns 0; a range error returns one of the bounds. */
  function Reason(p: Parsed): string
  {
    if p.value == 0 then "invalid syntax" else "value out of range"
  }

  lemma {:induction false} FormatNatValue(n: nat)
    ensures DigitsValue(FormatNat(n)) == n
    decreases n
  {
    var s := FormatNat(n);
    if n >= 10 {
      FormatNatValue(n / 10);
      assert s[..|s| - 1] == FormatNat(n / 10);
    }
  }

  /** `n` zero digits. */
  function Zeros(n: nat): (s: string)
    ensures |s| == n && AllDigits(s)
  {
    if n == 0 then [] else Zeros(n - 1) + ['0']
  }

  /** The text `sign`, then `zeros` zero digits, then `%d` of `n`. */
  function Padded(sign: string, zeros: nat, n: nat): string
  {
    sign + Zeros(zeros) + FormatNat(n)
  }

  predicate IsSign(sign: string)
  {
    sign == "" || sign == "+" || sign == "-"
  }

  /** The value `sign` gives the magnitude `n`. */
  function SignedBy(sign: string, n: nat): int
  {
    if sign == "-" then -(n as int) else n
  }

  function Magnitude(v: int): nat
  {
    if v < 0 then -v else v
  }

  lemma {:induction false} ZerosValue(z: nat, ds: string)
    requires AllDigits(ds)
    ensures AllDigits(Zeros(z) + ds) && DigitsValue(Zeros(z) + ds) == DigitsValue(ds)
    decreases |ds| + z
  {
    if ds == [] {
      assert Zeros(z) + ds == Zeros(z);
      if z > 0 {
        ZerosValue(z - 1, []);
        assert Zeros(z - 1) + [] == Zeros(z - 1);
        DigitsAppend(Zeros(z - 1), '0');
      }
    } else {
      var front := ds[..|ds| - 1];
      var last := ds[|ds| - 1];
      ZerosValue(z, front);
      assert Zeros(z) + ds == (Zeros(z) + front) + [last];
      assert ds == front + [last];
      DigitsAppend(Zeros(z) + front, last);
    }
  }

  lemma {:induction false} LeadingDigitPositive(ds: string)
    requires ds != [] && AllDigits(ds) && ds[0] != '0'
    ensures DigitsValue(ds) > 0
    decreases |ds|
  {
    if |ds| > 1 {
      LeadingDigitPositive(ds[..|ds| - 1]);
    }
  }

  lemma DigitCharOf(c: char)
    requires IsDigit(c)
    ensures DigitChar(c as int - '0' as int) == c
  {
    var d := c as int - '0' as int;
    assert 0 <= d < 10;
    if d == 0 {} else if d == 1 {} else if d == 2 {} else if d == 3 {} else if d == 4 {}
    else if d == 5 {} else if d == 6 {} else if d == 7 {} else if d == 8 {} else {}
  }

  /** A digit string without a leading zero is how `%d` writes its value. */
  lemma {:induction false} CanonicalDigits(ds: string)
    requires ds != [] && AllDigits(ds) && (ds[0] != '0' || |ds| == 1)
    ensures FormatNat(DigitsValue(ds)) == ds
    decreases |ds|
  {
    var last := ds[|ds| - 1];
    var d := last as int - '0' as int;
    DigitCharOf(last);
    var front := ds[..|ds| - 1];
    if |ds| == 1 {
      assert DigitsValue(ds) == d;
      assert ds == [last];
    } else {
      LeadingDigitPositive(front);
      CanonicalDigits(front);
      var v := DigitsValue(ds);
      assert v == DigitsValue(front) * 10 + d;
      assert v / 10 == DigitsValue(front) && v % 10 == d;
      assert FormatNat(v) == FormatNat(DigitsValue(front)) + [DigitChar(d)];
      assert ds == front + [last];
    }
  }

  /** Every digit string is some zeros followed by the `%d` text of its value. */
  lemma {:induction false} PaddedDigits(ds: string) returns (z: nat)
    requires ds != [] && AllDigits(ds)
    ensures ds == Zeros(z) + FormatNat(DigitsValue(ds))
    decreases |ds|
  {
    if ds[0] != '0' || |ds| == 1 {
      CanonicalDigits(ds);
      z := 0;
      assert ds == Zeros(0) + ds;
    } else {
      var rest := ds[1..];
      var z' := PaddedDigits(rest);
      z := z' + 1;
      PadOneMore(ds, z', FormatNat(DigitsValue(rest)));
    }
  }

  lemma PadOneMore(ds: string, z: nat, f: string)
    requires |ds| > 1 && ds[0] == '0' && AllDigits(ds) && ds[1..] == Zeros(z) + f
    ensures ds == Zeros(z + 1) + f && DigitsValue(ds) == DigitsValue(ds[1..])
  {
    ZerosShift(z);
    ZerosValue(1, ds[1..]);
    assert ds == Zeros(1) + ds[1..];
  }

  lemma {:induction false} ZerosShift(n: nat)
    ensures Zeros(n + 1) == Zeros(1) + Zeros(n)
    decreases n
  {
    if n > 0 {
      ZerosShift(n - 1);
    }
  }

  /** Appending one digit multiplies the value by ten and adds the digit. */
  lemma DigitsAppend(p: string, c: char)
    requires AllDigits(p) && IsDigit(c)
    ensures AllDigits(p + [c]) && DigitsValue(p + [c]) == DigitsValue(p) * 10 + (c as int - '0' as int)
  {
    assert (p + [c])[..|p|] == p;
  }

  lemma {:induction false} DigitsGrow(p: string, ds: string)
    requires AllDigits(p) && AllDigits(ds)
    ensures AllDigits(p + ds) && DigitsValue(p) <= DigitsValue(p + ds)
    decreases |ds|
  {
    if ds == [] {
      assert p + ds == p;
    } else {
      var front := ds[..|ds| - 1];
      DigitsGrow(p, front);
      assert p + ds == (p + front) + [ds[|ds| - 1]];
      DigitsAppend(p + front, ds[|ds| - 1]);
    }
  }

  /**
   * Having read the digits `p`, the loop reads the digits `ds` to the value of
   * `p + ds` and goes on with `tail`, or overflows inside `ds` when that
   * value exceeds 2^64 - 1, without reaching `tail`.
   */
  lemma {:induction false} ScanDigits(p: string, ds: string, tail: string)
    requires AllDigits(p) && AllDigits(ds) && DigitsValue(p) <= MAX_UINT
    ensures AllDigits(p + ds)
    ensures DigitsValue(p + ds) > MAX_UINT ==> ParseUint(ds + tail, DigitsValue(p)) == Overflow
    ensures DigitsValue(p + ds) <= MAX_UINT ==> ParseUint(ds + tail, DigitsValue(p)) == ParseUint(tail, DigitsValue(p + ds))
    decreases |ds|
  {
    if ds == [] {
      assert p + ds == p && ds + tail == tail;
    } else {
      var c := ds[0];
      var q := p + [c];
      DigitsAppend(p, c);
      assert q + ds[1..] == p + ds;
      assert (ds + tail)[1..] == ds[1..] + tail;
      if DigitsValue(q) > MAX_UINT {
        DigitsGrow(q, ds[1..]);
      } else {
        ScanDigits(q, ds[1..], tail);
      }
    }
  }

  /** A value the loop arrives at is the value of the digits it read. */
  lemma {:induction false} ScanValue(p: string, ds: string)
    requires AllDigits(p) && ParseUint(ds, DigitsValue(p)).Value?
    ensures AllDigits(ds) && AllDigits(p + ds) && ParseUint(ds, DigitsValue(p)).n == DigitsValue(p + ds)
    decreases |ds|
  {
    if ds == [] {
      assert p + ds == p;
    } else {
      DigitsAppend(p, ds[0]);
      ScanValue(p + [ds[0]], ds[1..]);
      assert (p + [ds[0]]) + ds[1..] == p + ds;
      assert forall i :: 1 <= i < |ds| ==> ds[i] == ds[1..][i - 1];
    }
  }

  lemma SignSplit(sign: string, ds: string)
    requires IsSign(sign) && ds != [] && IsDigit(ds[0])
    ensures Unsigned(sign + ds) == ds
    ensures (|sign + ds| > 0 && (sign + ds)[0] == '-') == (sign == "-")
  {
    if sign == "" {
      assert sign + ds == ds;
    } else {
      assert (sign + ds)[1..] == ds;
    }
  }

  /**
   * What `Atoi` accepts is an optional sign, any number of zeros and then the
   * `%d` text of the value's magnitude; a negative value had a minus sign.
   */
  lemma AtoiAccepts(s: string) returns (sign: string, zeros: nat)
    requires Atoi(s).ok
    ensures IsSign(sign) && s == Padded(sign, zeros, Magnitude(Atoi(s).value))
    ensures Atoi(s).value == SignedBy(sign, Magnitude(Atoi(s).value))
    ensures MIN_INT <= Atoi(s).value <= MAX_INT
  {
    var ds := Unsigned(s);
    sign := if ds == s then "" else s[..1];
    var u := AcceptedDigits(s, sign);
    zeros := PaddedDigits(ds);
    assert Padded(sign, zeros, u) == sign + (Zeros(zeros) + FormatNat(u));
  }

  /** An accepted string is a sign and digits, and its value is the digits' value with that sign. */
  lemma AcceptedDigits(s: string, sign: string) returns (u: nat)
    requires Atoi(s).ok && sign == (if Unsigned(s) == s then "" else s[..1])
    ensures IsSign(sign) && s == sign + Unsigned(s)
    ensures Unsigned(s) != [] && AllDigits(Unsigned(s)) && u == DigitsValue(Unsigned(s))
    ensures Atoi(s).value == SignedBy(sign, u) && u == Magnitude(Atoi(s).value)
  {
    var ds := Unsigned(s);
    u := ParseUint(ds, 0).n;
    ScanValue([], ds);
    assert [] + ds == ds;
    assert s == sign + ds;
  }

  /**
   * The converse: every optionally signed, zero-padded `%d` text whose value
   * fits in 64 bits is accepted with that value.
   */
  lemma AtoiReadsPadded(sign: string, zeros: nat, n: nat)
    requires IsSign(sign) && MIN_INT <= SignedBy(sign, n) <= MAX_INT
    ensures Atoi(Padded(sign, zeros, n)) == Parsed(SignedBy(sign, n), true)
  {
    var ds := Zeros(zeros) + FormatNat(n);
    ScanPadded(zeros, n);
    assert Padded(sign, zeros, n) == sign + ds;
    AtoiSigned(sign, ds);
  }

  /** The loop reads zeros followed by the `%d` text of `n` back to `n`. */
  lemma ScanPadded(zeros: nat, n: nat)
    requires n <= MAX_UINT
    ensures var ds := Zeros(zeros) + FormatNat(n); ds != [] && IsDigit(ds[0]) && ParseUint(ds, 0) == Value(n)
  {
    var ds := Zeros(zeros) + FormatNat(n);
    ZerosValue(zeros, FormatNat(n));
    FormatNatValue(n);
    ScanDigits([], ds, []);
    assert [] + ds == ds && ds + [] == ds;
  }

  /** `Atoi` of a sign and a digit string is decided by the loop on the digits alone. */
  lemma AtoiSigned(sign: string, ds: string)
    requires IsSign(sign) && ds != [] && IsDigit(ds[0])
    ensures Atoi(sign + ds) ==
      match ParseUint(ds, 0)
      case Syntax => Parsed(0, false)
      case Overflow => Parsed(if sign == "-" then MIN_INT else MAX_INT, false)
      case Value(u) =>
        if SignedBy(sign, u) > MAX_INT then Parsed(MAX_INT, false)
        else if SignedBy(sign, u) < MIN_INT then Parsed(MIN_INT, false)
        else Parsed(SignedBy(sign, u), true)
  {
    SignSplit(sign, ds);
  }

  /** Every 64-bit value survives being written with `%d` and read back with `Atoi`. */
  lemma AtoiFormatInt(n: int)
    requires MIN_INT <= n <= MAX_INT
    ensures Atoi(FormatInt(n)) == Parsed(n, true)
  {
    var sign := if n < 0 then "-" else "";
    var m: nat := if n < 0 then -n else n;
    assert FormatInt(n) == Padded(sign, 0, m);
    AtoiReadsPadded(sign, 0, m);
  }

  /**
   * A digit run worth more than 2^64 - 1 is out of range whatever follows it,
   * even characters that make the whole no number at all.
   */
  lemma AtoiOverflowClamps(sign: string, ds: string, tail: string)
    requires IsSign(sign) && AllDigits(ds) && DigitsValue(ds) > MAX_UINT
    ensures Atoi(sign + ds + tail) == Parsed(if sign == "-" then MIN_INT else MAX_INT, false)
    ensures Reason(Atoi(sign + ds + tail)) == "value out of range"
  {
    assert sign + ds + tail == sign + (ds + tail);
    OverflowSigned(sign, ds, tail);
  }

  lemma OverflowSigned(sign: string, ds: string, tail: string)
    requires IsSign(sign) && AllDigits(ds) && DigitsValue(ds) > MAX_UINT
    ensures Atoi(sign + (ds + tail)) == Parsed(if sign == "-" then MIN_INT else MAX_INT, false)
  {
    assert ds != [];
    OverflowScan(ds, tail);
    AtoiSigned(sign, ds + tail);
  }

  /** The unsigned case of `AtoiOverflowClamps`. */
  lemma AtoiOverflowUnsigned(ds: string, tail: string)
    requires AllDigits(ds) && DigitsValue(ds) > MAX_UINT
    ensures ds + tail != [] && Atoi(ds + tail) == Parsed(MAX_INT, false)
  {
    AtoiOverflowClamps("", ds, tail);
    assert "" + ds + tail == ds + tail;
  }

  lemma OverflowScan(ds: string, tail: string)
    requires AllDigits(ds) && DigitsValue(ds) > MAX_UINT
    ensures ParseUint(ds + tail, 0) == Overflow
  {
    ScanDigits([], ds, tail);
    assert [] + ds == ds;
  }
}
