/*
 * The board's small string and number library: integer-to-text encoders
 * that build their digits in a sentinel-terminated stack buffer, and the
 * byte-buffer and C-string helpers. Buffers are arrays of bytes; a C
 * pointer is an array together with an offset into it. `char` is unsigned,
 * as on the ARM targets this library is built for.
 */
module MiscLib {

  newtype byte = x: int | 0 <= x < 256

  const NUL: byte := 0
  const ZERO_CHAR: byte := 48     // '0'
  const LOWER_A: byte := 97       // 'a'
  const LOWER_X: byte := 120      // 'x'

  /** Largest value of a 32-bit unsigned integer, plus one. */
  const UINT32_LIMIT: nat := 0x1_0000_0000

  // ---------------------------------------------------------------------
  // Numerals
  // ---------------------------------------------------------------------

  /** The character for one digit: '0'..'9', then lower-case 'a'..'f'. */
  function DigitChar(d: nat): (c: byte)
    requires d < 16
    ensures c != NUL
    ensures d < 10 ==> c as int == ZERO_CHAR as int + d
    ensures 10 <= d ==> c as int == LOWER_A as int + d - 10
  {
    if d < 10 then (ZERO_CHAR as int + d) as byte else (LOWER_A as int + d - 10) as byte
  }

  /** A digit character of the given base: '0'..'9', then 'a'..'f', below the base. */
  predicate IsDigit(c: byte, base: nat)
  {
    || (ZERO_CHAR <= c < ZERO_CHAR + 10 && (c - ZERO_CHAR) as nat < base)
    || (LOWER_A <= c < LOWER_A + 6 && (c - LOWER_A) as nat + 10 < base)
  }

  /** The value of a digit character, the inverse of DigitChar. */
  function DigitValue(c: byte): nat
  {
    if ZERO_CHAR <= c < ZERO_CHAR + 10 then (c - ZERO_CHAR) as nat
    else if LOWER_A <= c < LOWER_A + 6 then (c - LOWER_A) as nat + 10
    else 0
  }

  /**
   * The digits of a positive number in the given base, most significant
   * first; zero has no digits here (the encoders print "0" for it).
   */
  function DigitsOf(n: nat, base: nat): (s: seq<byte>)
    requires 2 <= base <= 16
    ensures |s| == 0 <==> n == 0
    ensures forall i :: 0 <= i < |s| ==> s[i] != NUL
    ensures n > 0 ==> s[0] != ZERO_CHAR
    decreases n
  {
    if n == 0 then [] else DigitsOf(n / base, base) + [DigitChar(n % base)]
  }

  /** What the encoders print for a number: its digits, or "0" for zero. */
  function Numeral(n: nat, base: nat): (s: seq<byte>)
    requires 2 <= base <= 16
    ensures 1 <= |s|
    ensures forall i :: 0 <= i < |s| ==> s[i] != NUL
    ensures s[0] == ZERO_CHAR <==> n == 0
  {
    if n == 0 then [ZERO_CHAR] else DigitsOf(n, base)
  }

  /** Every character of a numeral is a digit of its base. */
  lemma NumeralDigits(n: nat, base: nat)
    requires 2 <= base <= 16
    ensures forall i :: 0 <= i < |Numeral(n, base)| ==> IsDigit(Numeral(n, base)[i], base)
  {
    if n > 0 {
      DigitsAreDigits(n, base);
    }
  }

  /** Every character DigitsOf produces is a digit of the base. */
  lemma {:induction false} DigitsAreDigits(n: nat, base: nat)
    requires 2 <= base <= 16
    ensures forall i :: 0 <= i < |DigitsOf(n, base)| ==> IsDigit(DigitsOf(n, base)[i], base)
    decreases n
  {
    if n > 0 {
      DigitsAreDigits(n / base, base);
      var s := DigitsOf(n, base);
      assert s == DigitsOf(n / base, base) + [DigitChar(n % base)];
      assert IsDigit(s[|s| - 1], base);
    }
  }

  /** Reading a numeral back: the value of a digit string in the given base. */
  function ParseDigits(s: seq<byte>, base: nat): nat
  {
    if s == [] then 0 else ParseDigits(s[..|s| - 1], base) * base + DigitValue(s[|s| - 1])
  }

  function Pow(b: nat, k: nat): nat
  {
    if k == 0 then 1 else b * Pow(b, k - 1)
  }

  lemma DigitRoundTrip(d: nat)
    requires d < 16
    ensures DigitValue(DigitChar(d)) == d
  {
  }

  lemma ParseSnoc(p: seq<byte>, c: byte, base: nat)
    ensures ParseDigits(p + [c], base) == ParseDigits(p, base) * base + DigitValue(c)
  {
    assert (p + [c])[..|p|] == p;
  }

  /** Reading back the digits of n gives n. */
  lemma {:induction false} DigitsRoundTrip(n: nat, base: nat)
    requires 2 <= base <= 16
    ensures ParseDigits(DigitsOf(n, base), base) == n
  {
    if n > 0 {
      var q, r := n / base, n % base;
      assert n == q * base + r;
      DivShrinks(n, base);
      DigitsRoundTrip(q, base);
      DigitRoundTrip(r);
      ParseSnoc(DigitsOf(q, base), DigitChar(r), base);
    }
  }

  /** Reading back the printed numeral of n gives n. */
  lemma NumeralRoundTrip(n: nat, base: nat)
    requires 2 <= base <= 16
    ensures ParseDigits(Numeral(n, base), base) == n
  {
    DigitsRoundTrip(n, base);
    if n == 0 {
      assert ParseDigits([ZERO_CHAR], base) == ParseDigits([], base) * base + 0;
    }
  }

  /** A number below base^k has at most k digits. */
  lemma {:induction false} DigitsLengthBound(n: nat, base: nat, k: nat)
    requires 2 <= base <= 16
    requires n < Pow(base, k)
    ensures |DigitsOf(n, base)| <= k
  {
    if n > 0 {
      assert k > 0;
      DivShrinks(n, base);
      DivBelow(n, base, Pow(base, k - 1));
      DigitsLengthBound(n / base, base, k - 1);
      assert |DigitsOf(n, base)| == |DigitsOf(n / base, base)| + 1;
    }
  }

  /** A number of at least base^(k-1) has at least k digits: no leading zeros. */
  lemma {:induction false} DigitsLengthLower(n: nat, base: nat, k: nat)
    requires 2 <= base <= 16
    requires 1 <= k && Pow(base, k - 1) <= n
    ensures k <= |DigitsOf(n, base)|
    decreases k
  {
    if k > 1 {
      var p := Pow(base, k - 2);
      assert Pow(base, k - 1) == base * p;
      DivAtLeast(n, base, p);
      DigitsLengthLower(n / base, base, k - 1);
      assert n / base != 0;
      DigitsOfStep(n, base);
    }
  }

  lemma MulCancelLess(b: nat, x: nat, y: nat)
    requires b > 0 && b * x < b * y
    ensures x < y
  {
  }

  lemma DivBelow(n: nat, b: nat, p: nat)
    requires 0 < b && n < b * p
    ensures n / b < p
  {
    var q := n / b;
    assert n == b * q + n % b;
    assert b * q < b * p;
    MulCancelLess(b, q, p);
  }

  lemma DivShrinks(n: nat, b: nat)
    requires 0 < n && 2 <= b
    ensures 0 <= n / b < n && 0 <= n % b < b
  {
  }

  lemma DivAtLeast(n: nat, b: nat, p: nat)
    requires 0 < b && b * p <= n
    ensures p <= n / b
  {
    var q := n / b;
    assert n == b * q + n % b;
    assert b * p < b * (q + 1);
    MulCancelLess(b, p, q + 1);
  }

  /** A 32-bit value prints as 1 to 10 decimal digits. */
  lemma DecimalNumeralLength(n: nat)
    requires n < UINT32_LIMIT
    ensures 1 <= |Numeral(n, 10)| <= 10
  {
    assert Pow(10, 10) == 10000000000;
    DigitsLengthBound(n, 10, 10);
  }

  /** A 32-bit value prints as 1 to 8 hexadecimal digits. */
  lemma HexNumeralLength(n: nat)
    requires n < UINT32_LIMIT
    ensures 1 <= |Numeral(n, 16)| <= 8
  {
    assert Pow(16, 8) == UINT32_LIMIT;
    DigitsLengthBound(n, 16, 8);
  }

  /** Taking the lowest digit off: the last digit of n is n % base. */
  lemma DigitsOfStep(n: nat, base: nat)
    requires 2 <= base <= 16 && n > 0
    ensures DigitsOf(n, base) == DigitsOf(n / base, base) + [DigitChar(n % base)]
  {
  }

  /** A prefix that ends in `c` after `pre`: one shorter it is `pre`, and `c` sits at its end. */
  lemma {:induction false} SplitLast(digits: seq<byte>, m: nat, pre: seq<byte>, c: byte)
    requires m <= |digits| && digits[..m] == pre + [c]
    ensures 1 <= m && pre == digits[..m - 1] && c == digits[m - 1]
  {
    assert |digits[..m]| == |pre| + 1;
    assert digits[..m - 1] == digits[..m][..m - 1];
  }

  /**
   * The shared digit writer of DECToASCII and HexToASCII: push the digits of
   * `dat`, least significant first, onto a 12-byte stack buffer whose slot 0
   * holds a NUL sentinel, then pop them into `str` from `pos` until the
   * sentinel comes back up. Returns the index just past the last digit.
   * The digits must fit the 11 free slots of the stack buffer.
   */
  method EmitDigits(dat: nat, base: nat, str: array<byte>, pos: nat) returns (end: nat)
    requires 2 <= base <= 16
    requires |DigitsOf(dat, base)| <= 11
    requires pos + |DigitsOf(dat, base)| <= str.Length
    modifies str
    ensures end == pos + |DigitsOf(dat, base)|
    ensures str[pos..end] == DigitsOf(dat, base)
    ensures forall i :: 0 <= i < str.Length && !(pos <= i < end) ==> str[i] == old(str[i])
  {
    ghost var digits := DigitsOf(dat, base);
    var tmp := new byte[12];
    tmp[0] := NUL;
    var top := 1;
    var d: nat := dat;
    // tmp[1..top] holds the lowest top - 1 digits, the lowest in tmp[1]
    while d != 0
      invariant 1 <= top <= |digits| + 1
      invariant tmp[0] == NUL
      invariant DigitsOf(d, base) == digits[..|digits| - (top - 1)]
      invariant forall i :: 1 <= i < top ==> tmp[i] == digits[|digits| - i]
      modifies tmp
      decreases d
    {
      DivShrinks(d, base);
      DigitsOfStep(d, base);
      SplitLast(digits, |digits| - (top - 1), DigitsOf(d / base, base), DigitChar(d % base));
      tmp[top] := DigitChar(d % base);
      top := top + 1;
      d := d / base;
    }
    var p := pos;
    var sp := top - 1;
    while tmp[sp] != NUL
      invariant 0 <= sp < top == |digits| + 1
      invariant tmp[0] == NUL
      invariant forall i :: 1 <= i < top ==> tmp[i] == digits[|digits| - i]
      invariant p == pos + (top - 1 - sp)
      invariant forall j :: pos <= j < p ==> str[j] == digits[j - pos]
      invariant forall i :: 0 <= i < str.Length && !(pos <= i < pos + |digits|) ==> str[i] == old(str[i])
      modifies str
      decreases sp
    {
      str[p] := tmp[sp];
      p := p + 1;
      sp := sp - 1;
    }
    end := p;
  }

  /**
   * DECToASCII: write the decimal digits of `dat`, most significant first,
   * then a NUL; return the index of that NUL.
   */
  method DecToAscii(dat: nat, str: array<byte>, pos: nat) returns (end: nat)
    requires dat < UINT32_LIMIT
    requires pos + |Numeral(dat, 10)| < str.Length
    modifies str
    ensures end == pos + |Numeral(dat, 10)|
    ensures str[pos..end] == Numeral(dat, 10) && str[end] == NUL
    ensures forall i :: 0 <= i < str.Length && !(pos <= i <= end) ==> str[i] == old(str[i])
  {
    var p := pos;
    if dat == 0 {
      str[p] := ZERO_CHAR;
      p := p + 1;
    }
    DecimalNumeralLength(dat);
    end := EmitDigits(dat, 10, str, p);
    str[end] := NUL;
  }

  /**
   * HexToASCII: write "0x", the lower-case hexadecimal digits of `dat`
   * without leading zeros ("0" for zero), then a NUL; return the index of
   * that NUL.
   */
  method HexToAscii(dat: nat, str: array<byte>, pos: nat) returns (end: nat)
    requires dat < UINT32_LIMIT
    requires pos + 2 + |Numeral(dat, 16)| < str.Length
    modifies str
    ensures end == pos + 2 + |Numeral(dat, 16)|
    ensures str[pos..end] == HexText(dat) && str[end] == NUL
    ensures forall i :: 0 <= i < str.Length && !(pos <= i <= end) ==> str[i] == old(str[i])
  {
    str[pos] := ZERO_CHAR;
    str[pos + 1] := LOWER_X;
    var p := pos + 2;
    if dat == 0 {
      str[p] := ZERO_CHAR;
      p := p + 1;
    }
    HexNumeralLength(dat);
    end := EmitDigits(dat, 16, str, p);
    HexWritten(str[..], pos, p, end, dat);
    ghost var text := str[pos..end];
    str[end] := NUL;
    assert str[pos..end] == text;
  }

  /**
   * The bytes HexToASCII has written before its NUL: "0x", a '0' when the
   * value is zero, then the digits, make up HexText of the value.
   */
  lemma HexWritten(a: seq<byte>, pos: nat, p: nat, end: nat, dat: nat)
    requires p == pos + 2 + (if dat == 0 then 1 else 0) && p <= end <= |a|
    requires a[pos] == ZERO_CHAR && a[pos + 1] == LOWER_X
    requires dat == 0 ==> a[pos + 2] == ZERO_CHAR
    requires a[p..end] == DigitsOf(dat, 16)
    ensures a[pos..end] == HexText(dat)
  {
    if dat == 0 {
      assert a[pos + 2..end] == [ZERO_CHAR];
    }
    assert a[pos..end][..2] == [ZERO_CHAR, LOWER_X];
    assert a[pos..end][2..] == a[pos + 2..end];
    IsHexText(a[pos..end], dat);
  }

  /** A text that is "0x" followed by the hexadecimal numeral of `dat` is HexText(dat). */
  lemma IsHexText(t: seq<byte>, dat: nat)
    requires |t| >= 2 && t[..2] == [ZERO_CHAR, LOWER_X] && t[2..] == Numeral(dat, 16)
    ensures t == HexText(dat)
  {
    assert t == t[..2] + t[2..];
  }

  /** The text HexToASCII prints: "0x" followed by the hexadecimal numeral. */
  function HexText(dat: nat): (s: seq<byte>)
    ensures 3 <= |s| && s[..2] == [ZERO_CHAR, LOWER_X]
    ensures forall i :: 2 <= i < |s| ==> IsDigit(s[i], 16)
    ensures s[2] == ZERO_CHAR <==> dat == 0
    ensures dat < UINT32_LIMIT ==> |s| <= 10
    ensures ParseDigits(s[2..], 16) == dat
  {
    HexNumeralFacts(dat);
    [ZERO_CHAR, LOWER_X] + Numeral(dat, 16)
  }

  /** What HexText needs of the hexadecimal numeral: it reads back, and fits eight digits. */
  lemma HexNumeralFacts(dat: nat)
    ensures forall i :: 0 <= i < |Numeral(dat, 16)| ==> IsDigit(Numeral(dat, 16)[i], 16)
    ensures ParseDigits(Numeral(dat, 16), 16) == dat
    ensures dat < UINT32_LIMIT ==> |Numeral(dat, 16)| <= 8
  {
    NumeralDigits(dat, 16);
    NumeralRoundTrip(dat, 16);
    if dat < UINT32_LIMIT {
      HexNumeralLength(dat);
    }
  }

  // ---------------------------------------------------------------------
  // Byte buffers
  // ---------------------------------------------------------------------

  /**
   * Memcpy: for a positive count, copy `count` bytes from `src` at `srcOff`
   * to `dst` at `dstOff`; a count of zero or less copies nothing.
   */
  method Memcpy(dst: array<byte>, dstOff: nat, src: array<byte>, srcOff: nat, count: int)
    requires dst != src
    requires count > 0 ==> dstOff + count <= dst.Length && srcOff + count <= src.Length
    modifies dst
    ensures count > 0 ==> dst[dstOff..dstOff + count] == src[srcOff..srcOff + count]
    ensures forall i :: 0 <= i < dst.Length && !(count > 0 && dstOff <= i < dstOff + count) ==> dst[i] == old(dst[i])
  {
    var c := count;
    var k := 0;
    while c > 0
      invariant c == if count > 0 then count - k else count
      invariant 0 <= k && (count > 0 ==> k <= count) && (count <= 0 ==> k == 0)
      invariant count > 0 ==> dst[dstOff..dstOff + k] == src[srcOff..srcOff + k]
      invariant forall i :: 0 <= i < dst.Length && !(dstOff <= i < dstOff + k) ==> dst[i] == old(dst[i])
    {
      dst[dstOff + k] := src[srcOff + k];
      k := k + 1;
      c := c - 1;
    }
  }

  /** MemSet: for a positive count, set `num` bytes of `des` from `off` to `c`. */
  method MemSet(des: array<byte>, off: nat, c: byte, num: int)
    requires num > 0 ==> off + num <= des.Length
    modifies des
    ensures forall i :: 0 <= i < des.Length && num > 0 && off <= i < off + num ==> des[i] == c
    ensures forall i :: 0 <= i < des.Length && !(num > 0 && off <= i < off + num) ==> des[i] == old(des[i])
  {
    var n := num;
    var k := 0;
    while n > 0
      invariant n == if num > 0 then num - k else num
      invariant 0 <= k && (num > 0 ==> k <= num) && (num <= 0 ==> k == 0)
      invariant forall i :: off <= i < off + k ==> des[i] == c
      invariant forall i :: 0 <= i < des.Length && !(off <= i < off + k) ==> des[i] == old(des[i])
    {
      des[off + k] := c;
      k := k + 1;
      n := n - 1;
    }
  }

  // ---------------------------------------------------------------------
  // C strings
  // ---------------------------------------------------------------------

  /** There is a NUL at or after `from`: a C string starts at `from`. */
  predicate Terminated(s: seq<byte>, from: nat)
  {
    exists k :: from <= k < |s| && s[k] == NUL
  }

  /** The length of the C string at `from`: the distance to the first NUL. */
  function CStrLen(s: seq<byte>, from: nat): (n: nat)
    requires Terminated(s, from)
    ensures from + n < |s| && s[from + n] == NUL
    ensures forall j :: from <= j < from + n ==> s[j] != NUL
    decreases |s| - from
  {
    if s[from] == NUL then 0 else 1 + CStrLen(s, from + 1)
  }

  /** The bytes of the C string at `from`, without its NUL. */
  function CStr(s: seq<byte>, from: nat): (r: seq<byte>)
    requires Terminated(s, from)
    ensures NUL !in r
  {
    s[from..from + CStrLen(s, from)]
  }

  /** The NUL that ends a string is the first one: the length is unique. */
  lemma {:induction false} CStrLenUnique(s: seq<byte>, from: nat, n: nat)
    requires from + n < |s| && s[from + n] == NUL
    requires forall j :: from <= j < from + n ==> s[j] != NUL
    ensures Terminated(s, from) && CStrLen(s, from) == n
    decreases n
  {
    assert Terminated(s, from) by { assert s[from + n] == NUL; }
    if n > 0 {
      assert s[from] != NUL;
      CStrLenUnique(s, from + 1, n - 1);
    }
  }

  /**
   * The number of non-NUL bytes from `from` before the first NUL, counting
   * at most `limit` of them.
   */
  function BoundedLen(s: seq<byte>, from: nat, limit: nat): nat
    requires Terminated(s, from) || from + limit <= |s|
    decreases limit
  {
    if limit == 0 || s[from] == NUL then 0 else 1 + BoundedLen(s, from + 1, limit - 1)
  }

  /** On a C string, the bounded length is min(length, limit). */
  lemma {:induction false} BoundedLenIsMin(s: seq<byte>, from: nat, limit: nat)
    requires Terminated(s, from)
    ensures BoundedLen(s, from, limit) == if CStrLen(s, from) < limit then CStrLen(s, from) else limit
    decreases limit
  {
    if limit > 0 && s[from] != NUL {
      assert Terminated(s, from + 1);
      CStrLenUnique(s, from + 1, CStrLen(s, from) - 1);
      BoundedLenIsMin(s, from + 1, limit - 1);
    }
  }

  /** StrLen: count the bytes before the first NUL. */
  method StrLen(str: array<byte>, off: nat) returns (n: int)
    requires Terminated(str[..], off)
    ensures n == CStrLen(str[..], off)
  {
    var i := 0;
    var p := off;
    while str[p] != NUL
      invariant p == off + i && 0 <= i <= CStrLen(str[..], off)
      decreases CStrLen(str[..], off) - i
    {
      i := i + 1;
      p := p + 1;
    }
    n := i;
  }

  /**
   * StrNLen: StrLen when `precision` is -1; otherwise stop counting once
   * `precision` bytes are counted, so a non-negative precision gives
   * min(StrLen, precision) and a precision below -1 gives 0.
   */
  method StrNLen(str: array<byte>, off: nat, precision: int) returns (n: int)
    requires Terminated(str[..], off)
             || (precision >= 0 && off + precision < str.Length)
             || (precision < -1 && off < str.Length)
    ensures precision == -1 ==> Terminated(str[..], off) && n == CStrLen(str[..], off)
    ensures precision < -1 ==> n == 0
    ensures precision >= 0 ==> n == BoundedLen(str[..], off, precision)
  {
    var i := 0;
    var p := off;
    while str[p] != NUL
      invariant p == off + i && 0 <= i
      invariant Terminated(str[..], off) ==> i <= CStrLen(str[..], off)
      invariant precision >= 0 ==> i <= precision && BoundedLen(str[..], off, precision) == i + BoundedLen(str[..], p, precision - i)
      invariant precision == -1 ==> Terminated(str[..], off) && i <= CStrLen(str[..], off)
      invariant precision < -1 ==> i == 0
      decreases str.Length - p
    {
      if precision != -1 && i >= precision {
        break;
      }
      i := i + 1;
      p := p + 1;
    }
    n := i;
  }

  /**
   * The result of comparing two equally long byte strings: 0 when they are
   * equal, otherwise the difference of the bytes where they first differ.
   */
  function FirstDifference(a: seq<byte>, b: seq<byte>): (r: int)
    requires |a| == |b|
    ensures r == 0 <==> a == b
    ensures r != 0 ==> exists i :: 0 <= i < |a| && a[..i] == b[..i] && a[i] != b[i] && r == a[i] as int - b[i] as int
  {
    if a == [] then 0
    else if a[0] != b[0] then a[0] as int - b[0] as int
    else
      var r := FirstDifference(a[1..], b[1..]);
      assert a == [a[0]] + a[1..] && b == [b[0]] + b[1..];
      if r != 0 then
        var i :| 0 <= i < |a| - 1 && a[1..][..i] == b[1..][..i] && a[1..][i] != b[1..][i] && r == a[1..][i] as int - b[1..][i] as int;
        assert a[..i + 1] == [a[0]] + a[1..][..i] && b[..i + 1] == [b[0]] + b[1..][..i];
        r
      else r
  }

  /**
   * MemCmp: compare `len` bytes; 0 when `len` is not positive or all agree,
   * otherwise the difference of the bytes at the first index where they differ.
   */
  method MemCmp(s1: array<byte>, off1: nat, s2: array<byte>, off2: nat, len: int) returns (r: int)
    requires len > 0 ==> off1 + len <= s1.Length && off2 + len <= s2.Length
    ensures r == if len <= 0 then 0 else FirstDifference(s1[off1..off1 + len], s2[off2..off2 + len])
  {
    if len <= 0 {
      return 0;
    }
    ghost var a, b := s1[off1..off1 + len], s2[off2..off2 + len];
    var i := 0;
    while i < len
      invariant 0 <= i <= len
      invariant FirstDifference(a, b) == FirstDifference(a[i..], b[i..])
    {
      if s1[off1 + i] != s2[off2 + i] {
        assert a[i..][0] == s1[off1 + i] && b[i..][0] == s2[off2 + i];
        return s1[off1 + i] as int - s2[off2 + i] as int;
      }
      MismatchFreeStep(a[i..], b[i..]);
      assert a[i..][1..] == a[i + 1..] && b[i..][1..] == b[i + 1..];
      i := i + 1;
    }
    assert a[len..] == [] == b[len..];
    return 0;
  }

  lemma MismatchFreeStep(a: seq<byte>, b: seq<byte>)
    requires |a| == |b| > 0 && a[0] == b[0]
    ensures FirstDifference(a, b) == FirstDifference(a[1..], b[1..])
  {
  }

  /**
   * StrCat: NULL for either pointer returns NULL and writes nothing;
   * otherwise append the source string at the destination string's NUL,
   * terminate it, and return a pointer to the new terminating NUL.
   */
  method StrCat(dest: array?<byte>, destOff: nat, source: array?<byte>, sourceOff: nat)
    returns (r: array?<byte>, rOff: nat)
    requires dest != null && source != null ==> CatFits(dest[..], destOff, source[..], sourceOff) && dest != source
    modifies dest
    ensures dest == null || source == null ==> r == null && (dest != null ==> dest[..] == old(dest[..]))
    ensures dest != null && source != null ==>
              r == dest && rOff == destOff + CStrLen(old(dest[..]), destOff) + CStrLen(source[..], sourceOff)
              && dest[..] == Appended(old(dest[..]), destOff, source[..], sourceOff)
  {
    if dest == null || source == null {
      return null, 0;
    }
    ghost var d0, src0 := dest[..], source[..];
    ghost var a, n := CStrLen(d0, destOff), CStrLen(src0, sourceOff);
    var d := destOff;
    while dest[d] != NUL
      invariant destOff <= d <= destOff + a
      decreases destOff + a - d
    {
      d := d + 1;
    }
    ghost var start := d;
    var s := sourceOff;
    while source[s] != NUL
      invariant sourceOff <= s <= sourceOff + n
      invariant d == start + (s - sourceOff)
      invariant forall j :: 0 <= j < start ==> dest[j] == d0[j]
      invariant forall j :: start <= j < d ==> dest[j] == src0[sourceOff + (j - start)]
      invariant forall j :: d <= j < dest.Length ==> dest[j] == d0[j]
      modifies dest
      decreases sourceOff + n - s
    {
      dest[d] := source[s];
      d := d + 1;
      s := s + 1;
    }
    dest[d] := NUL;
    AppendedFromParts(d0, destOff, src0, sourceOff, dest[..]);
    return dest, d;
  }

  /** A buffer that agrees with `Appended` part by part is `Appended`. */
  lemma AppendedFromParts(d: seq<byte>, dOff: nat, s: seq<byte>, sOff: nat, r: seq<byte>)
    requires CatFits(d, dOff, s, sOff) && |r| == |d|
    requires var end, n := dOff + CStrLen(d, dOff), CStrLen(s, sOff);
      && (forall j :: 0 <= j < end ==> r[j] == d[j])
      && (forall j :: end <= j < end + n ==> r[j] == s[sOff + (j - end)])
      && r[end + n] == NUL
      && (forall j :: end + n < j < |r| ==> r[j] == d[j])
    ensures r == Appended(d, dOff, s, sOff)
  {
    var end, n := dOff + CStrLen(d, dOff), CStrLen(s, sOff);
    var e := Appended(d, dOff, s, sOff);
    forall j | 0 <= j < |r|
      ensures r[j] == e[j]
    {
      if j < end {
        assert e[j] == d[..end][j];
      } else if j < end + n {
        assert e[j] == CStr(s, sOff)[j - end];
      } else if j > end + n {
        assert e[j] == d[end + n + 1..][j - end - n - 1];
      }
    }
  }

  /** The destination has room for both strings and the NUL. */
  predicate CatFits(d: seq<byte>, dOff: nat, s: seq<byte>, sOff: nat)
  {
    Terminated(d, dOff) && Terminated(s, sOff)
    && dOff + CStrLen(d, dOff) + CStrLen(s, sOff) < |d|
  }

  /** The destination buffer after StrCat, described by where each part lands. */
  function Appended(d: seq<byte>, dOff: nat, s: seq<byte>, sOff: nat): (r: seq<byte>)
    requires CatFits(d, dOff, s, sOff)
    ensures |r| == |d|
  {
    var end := dOff + CStrLen(d, dOff);
    var n := CStrLen(s, sOff);
    d[..end] + CStr(s, sOff) + [NUL] + d[end + n + 1..]
  }

  /**
   * After StrCat the destination holds the old string followed by the source
   * string as one C string, and no byte before the old string or after the
   * new NUL changes.
   */
  lemma AppendedIsConcatenation(d: seq<byte>, dOff: nat, s: seq<byte>, sOff: nat)
    requires CatFits(d, dOff, s, sOff)
    ensures Terminated(Appended(d, dOff, s, sOff), dOff)
    ensures CStr(Appended(d, dOff, s, sOff), dOff) == CStr(d, dOff) + CStr(s, sOff)
    ensures Appended(d, dOff, s, sOff)[..dOff] == d[..dOff]
    ensures Appended(d, dOff, s, sOff)[dOff + CStrLen(d, dOff) + CStrLen(s, sOff) + 1..]
            == d[dOff + CStrLen(d, dOff) + CStrLen(s, sOff) + 1..]
  {
    var r := Appended(d, dOff, s, sOff);
    var a, b := CStrLen(d, dOff), CStrLen(s, sOff);
    var joined := CStr(d, dOff) + CStr(s, sOff);
    AppendedShape(d, dOff, s, sOff);
    assert r[dOff..dOff + a + b] == joined;
    forall j | dOff <= j < dOff + a + b
      ensures r[j] != NUL
    {
      assert r[j] == joined[j - dOff];
    }
    CStrLenUnique(r, dOff, a + b);
  }

  /** `Appended` regrouped: the bytes before the old string, the joined string, NUL, the rest. */
  lemma AppendedShape(d: seq<byte>, dOff: nat, s: seq<byte>, sOff: nat)
    requires CatFits(d, dOff, s, sOff)
    ensures var a, b := CStrLen(d, dOff), CStrLen(s, sOff);
      Appended(d, dOff, s, sOff)
      == d[..dOff] + (CStr(d, dOff) + CStr(s, sOff)) + [NUL] + d[dOff + a + b + 1..]
  {
    var a, b := CStrLen(d, dOff), CStrLen(s, sOff);
    var x, y, z, tail := d[..dOff], CStr(d, dOff), CStr(s, sOff), d[dOff + a + b + 1..];
    assert Appended(d, dOff, s, sOff) == d[..dOff + a] + z + [NUL] + tail;
    assert y == d[dOff..dOff + a];
    PrefixSplit(d, dOff, dOff + a);
    Regroup(x, y, z, tail);
  }

  /** A prefix is the shorter prefix followed by the slice between them. */
  lemma PrefixSplit(d: seq<byte>, i: nat, j: nat)
    requires i <= j <= |d|
    ensures d[..j] == d[..i] + d[i..j]
  {
  }

  /** Concatenation regrouped around the middle part. */
  lemma Regroup(x: seq<byte>, y: seq<byte>, z: seq<byte>, tail: seq<byte>)
    ensures (x + y) + z + [NUL] + tail == x + (y + z) + [NUL] + tail
  {
  }
}
