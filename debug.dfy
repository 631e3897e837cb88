/*
 * The board's debug console on USART1: a byte and string writer, a small
 * printf with the conversions %d, %x, %c and %s, and the baud-rate divisor
 * computed when the port is set up. The bytes sent on the line are the
 * observable behaviour; the transmit-empty wait and the interrupt masking
 * around printf are hardware timing and are not modelled.
 */
module Debug {
  import opened MiscLib

  const PERCENT: byte := 37   // '%'
  const LF: byte := 10        // '\n'
  const CR: byte := 13        // '\r'
  const CONV_D: byte := 100   // 'd'
  const CONV_X: byte := 120   // 'x'
  const CONV_C: byte := 99    // 'c'
  const CONV_S: byte := 115   // 's'

  /** The console's line speed in bits per second. */
  const BAUDRATE: nat := 115200

  /** A C `int` on the 32-bit target. */
  type Int32 = x: int | -0x8000_0000 <= x < 0x8000_0000

  /**
   * One variadic argument: an `int`, or a `char *` given by the memory it
   * points to.
   */
  datatype Arg = IntArg(v: Int32) | StrArg(mem: seq<byte>)

  datatype Option<T> = None | Some(value: T)

  /** The conversions stm_printf's `switch` has a case for. */
  predicate IsConversion(conv: byte)
  {
    conv == CONV_D || conv == CONV_X || conv == CONV_C || conv == CONV_S
  }

  /** The `uint32_t` an `int` argument becomes when passed to the encoders. */
  function AsUint32(v: Int32): (u: nat)
    ensures u < UINT32_LIMIT
    ensures v >= 0 ==> u == v
    ensures v < 0 ==> u == v + UINT32_LIMIT
  {
    v % UINT32_LIMIT
  }

  /** Plain text as sent: every LF is preceded by a CR. */
  function Crlf(t: seq<byte>): (r: seq<byte>)
    ensures |r| >= |t|
    ensures forall i :: 0 <= i < |r| && r[i] == LF ==> 0 < i && r[i - 1] == CR
  {
    if t == [] then [] else (if t[0] == LF then [CR, LF] else [t[0]]) + Crlf(t[1..])
  }

  /** What a receiver does to undo Crlf: a CR directly before an LF is dropped, every other byte kept. */
  function DropCrBeforeLf(r: seq<byte>): seq<byte>
    decreases |r|
  {
    if r == [] then []
    else if |r| >= 2 && r[0] == CR && r[1] == LF then [LF] + DropCrBeforeLf(r[2..])
    else [r[0]] + DropCrBeforeLf(r[1..])
  }

  /** The CRs printf adds lose nothing: dropping them gives the text back, CRs of its own included. */
  lemma {:induction false} CrlfRoundTrip(t: seq<byte>)
    ensures DropCrBeforeLf(Crlf(t)) == t
    decreases |t|
  {
    if t != [] {
      var rest := Crlf(t[1..]);
      CrlfRoundTrip(t[1..]);
      if t[0] == LF {
        assert Crlf(t) == [CR, LF] + rest;
        assert Crlf(t)[2..] == rest;
      } else {
        assert Crlf(t) == [t[0]] + rest;
        assert Crlf(t)[1..] == rest;
        assert rest != [] ==> rest[0] != LF;
      }
      assert t == [t[0]] + t[1..];
    }
  }

  /**
   * The bytes stm_printf sends for the format text `t` (the format string
   * without its NUL) and the arguments from `args` on; None where the call
   * has no defined behaviour: a `%` just before the terminating NUL, a
   * missing argument, or an argument of the wrong kind.
   */
  function Render(t: seq<byte>, args: seq<Arg>): (r: Option<seq<byte>>)
    ensures r.None? ==> PERCENT in t
    decreases |t|
  {
    if t == [] then Some([])
    else if t[0] != PERCENT then
      match Render(t[1..], args)
      case None => None
      case Some(rest) => Some((if t[0] == LF then [CR, LF] else [t[0]]) + rest)
    else if |t| == 1 then None
    else
      var conv := t[1];
      if IsConversion(conv) then
        if args == [] then None
        else match Converted(conv, args[0])
          case None => None
          case Some(out) =>
            match Render(t[2..], args[1..])
            case None => None
            case Some(rest) => Some(out + rest)
      else Render(t[2..], args)
  }

  /** What one conversion sends for its argument. */
  function Converted(conv: byte, a: Arg): (r: Option<seq<byte>>)
    ensures conv == CONV_D && a.IntArg? ==> r == Some(Numeral(AsUint32(a.v), 10))
    ensures conv == CONV_X && a.IntArg? ==> r == Some(HexText(AsUint32(a.v)))
    ensures conv == CONV_C && a.IntArg? ==> r == Some([(a.v % 256) as byte])
    ensures conv == CONV_S && a.StrArg? && Terminated(a.mem, 0) ==> r == Some(CStr(a.mem, 0))
    ensures r.None? <==> (a.IntArg? != (conv != CONV_S)) || (a.StrArg? && !Terminated(a.mem, 0))
                         || !IsConversion(conv)
  {
    match a
    case IntArg(v) =>
      if conv == CONV_D then Some(Numeral(AsUint32(v), 10))
      else if conv == CONV_X then Some(HexText(AsUint32(v)))
      else if conv == CONV_C then Some([(v % 256) as byte])
      else None
    case StrArg(mem) =>
      if conv == CONV_S && Terminated(mem, 0) then Some(CStr(mem, 0)) else None
  }

  /** One step of Render: what the first byte or conversion sends, then the rest. */
  lemma RenderStep(t: seq<byte>, args: seq<Arg>)
    requires t != [] && Render(t, args).Some?
    ensures t[0] != PERCENT ==>
      Render(t[1..], args).Some? &&
      Render(t, args).value == (if t[0] == LF then [CR, LF] else [t[0]]) + Render(t[1..], args).value
    ensures t[0] == PERCENT ==> |t| >= 2
    ensures t[0] == PERCENT && IsConversion(t[1]) ==>
      args != [] && Converted(t[1], args[0]).Some? && Render(t[2..], args[1..]).Some? &&
      Render(t, args).value == Converted(t[1], args[0]).value + Render(t[2..], args[1..]).value
    ensures t[0] == PERCENT && !IsConversion(t[1]) ==>
      Render(t, args) == Render(t[2..], args)
  {
  }

  /** RenderStep at position `str` of a text and `k` of the arguments, in the terms a loop uses. */
  lemma RenderStepAt(text: seq<byte>, args: seq<Arg>, str: nat, k: nat)
    requires str < |text| && k <= |args| && Render(text[str..], args[k..]).Some?
    ensures text[str] != PERCENT ==>
      Render(text[str + 1..], args[k..]).Some? &&
      Render(text[str..], args[k..]).value
        == (if text[str] == LF then [CR, LF] else [text[str]]) + Render(text[str + 1..], args[k..]).value
    ensures text[str] == PERCENT ==> str + 1 < |text|
    ensures text[str] == PERCENT && str + 1 < |text| && IsConversion(text[str + 1]) ==>
      k < |args| && Converted(text[str + 1], args[k]).Some? && Render(text[str + 2..], args[k + 1..]).Some? &&
      Render(text[str..], args[k..]).value
        == Converted(text[str + 1], args[k]).value + Render(text[str + 2..], args[k + 1..]).value
    ensures text[str] == PERCENT && str + 1 < |text| && !IsConversion(text[str + 1]) ==>
      Render(text[str..], args[k..]) == Render(text[str + 2..], args[k..])
  {
    var t := text[str..];
    RenderStep(t, args[k..]);
    assert t[1..] == text[str + 1..];
    if t[0] == PERCENT {
      assert t[2..] == text[str + 2..];
      if IsConversion(t[1]) {
        assert args[k..][0] == args[k] && args[k..][1..] == args[k + 1..];
      }
    }
  }

  /** Sending `piece` and then `rest` sends what sending `rest` after `piece` was sent does. */
  lemma SentThenRest(before: seq<byte>, piece: seq<byte>, rest: seq<byte>, after: seq<byte>)
    requires after == before + piece
    ensures before + (piece + rest) == after + rest
  {
  }

  /** A format without `%` is sent as its text with CR before each LF, whatever the arguments. */
  lemma {:induction false} RenderPlainText(t: seq<byte>, args: seq<Arg>)
    requires PERCENT !in t
    ensures Render(t, args) == Some(Crlf(t))
    decreases |t|
  {
    if t != [] {
      assert PERCENT !in t[1..] by {
        forall j | 0 <= j < |t[1..]| ensures t[1..][j] != PERCENT {
          assert t[1..][j] == t[j + 1];
        }
      }
      RenderPlainText(t[1..], args);
    }
  }

  /** A `%` followed by any other character sends nothing and uses no argument. */
  lemma RenderSkipsUnknown(conv: byte, rest: seq<byte>, args: seq<Arg>)
    requires !IsConversion(conv)
    ensures Render([PERCENT, conv] + rest, args) == Render(rest, args)
  {
    var t := [PERCENT, conv] + rest;
    assert t[1] == conv && t[2..] == rest;
  }

  /** Arguments beyond those the format uses are ignored. */
  lemma {:induction false} RenderIgnoresExtraArgs(t: seq<byte>, args: seq<Arg>, extra: seq<Arg>)
    requires Render(t, args).Some?
    ensures Render(t, args + extra) == Render(t, args)
    decreases |t|
  {
    if t == [] {
    } else if t[0] != PERCENT {
      RenderIgnoresExtraArgs(t[1..], args, extra);
    } else {
      var conv := t[1];
      if IsConversion(conv) {
        assert (args + extra)[0] == args[0] && (args + extra)[1..] == args[1..] + extra;
        RenderIgnoresExtraArgs(t[2..], args[1..], extra);
      } else {
        RenderIgnoresExtraArgs(t[2..], args, extra);
      }
    }
  }

  /** The text of a numeric conversion fits the 16-byte buffer printf gives it, NUL included. */
  lemma NumericTextFits(v: Int32)
    ensures |Numeral(AsUint32(v), 10)| + 1 <= 16
    ensures |HexText(AsUint32(v))| + 1 <= 16
  {
    DecimalNumeralLength(AsUint32(v));
    HexNumeralLength(AsUint32(v));
  }

  /** The USART1 transmitter: everything sent so far. */
  class DebugPort {
    var sent: seq<byte>

    constructor ()
      ensures sent == []
    {
      sent := [];
    }

    /** stm_putc: send one byte; returns 0. */
    method Putc(b: byte) returns (r: byte)
      modifies this`sent
      ensures sent == old(sent) + [b] && r == 0
    {
      sent := sent + [b];
      r := 0;
    }

    /** stm_puts: send the C string at `from`; returns the NUL it stopped at. */
    method Puts(mem: seq<byte>, from: nat) returns (r: byte)
      requires Terminated(mem, from)
      modifies this`sent
      ensures sent == old(sent) + CStr(mem, from) && r == NUL
    {
      var p := from;
      while mem[p] != NUL
        invariant from <= p <= from + CStrLen(mem, from)
        invariant sent == old(sent) + mem[from..p]
        decreases from + CStrLen(mem, from) - p
      {
        assert mem[from..p + 1] == mem[from..p] + [mem[p]];
        var _ := Putc(mem[p]);
        p := p + 1;
      }
      r := mem[p];
    }

    /** stm_printf in the DEBUG build: send the format with its conversions; returns 0. */
    method Printf(fmt: seq<byte>, args: seq<Arg>) returns (r: int)
      requires Terminated(fmt, 0)
      requires Render(CStr(fmt, 0), args).Some?
      modifies this`sent
      ensures sent == old(sent) + Render(CStr(fmt, 0), args).value
      ensures r == 0
    {
      ghost var text := CStr(fmt, 0);
      var str := 0;
      var k := 0;
      while fmt[str] != NUL
        invariant 0 <= str <= |text| && 0 <= k <= |args|
        invariant Render(text[str..], args[k..]).Some?
        invariant sent + Render(text[str..], args[k..]).value == old(sent) + Render(text, args).value
        decreases |text| - str
      {
        str, k := PrintfStep(fmt, text, args, str, k);
      }
      assert text[str..] == [];
      r := 0;
    }

    /**
     * One pass of stm_printf's loop at `str`: a plain byte, or a `%` with the
     * byte after it. Returns where the next pass starts and the next argument.
     */
    method PrintfStep(fmt: seq<byte>, ghost text: seq<byte>, args: seq<Arg>, str: nat, k: nat)
      returns (str2: nat, k2: nat)
      requires Terminated(fmt, 0) && text == CStr(fmt, 0)
      requires str < |text| && k <= |args| && Render(text[str..], args[k..]).Some?
      modifies this`sent
      ensures str < str2 <= |text| && k <= k2 <= |args| && Render(text[str2..], args[k2..]).Some?
      ensures old(sent) + Render(text[str..], args[k..]).value == sent + Render(text[str2..], args[k2..]).value
    {
      ghost var before := sent;
      RenderStepAt(text, args, str, k);
      assert text[str] == fmt[str];
      if fmt[str] != PERCENT {
        SendPlain(fmt[str]);
        str2, k2 := str + 1, k;
        SentThenRest(before, if fmt[str] == LF then [CR, LF] else [fmt[str]],
                     Render(text[str2..], args[k2..]).value, sent);
      } else {
        assert text[str + 1] == fmt[str + 1];
        var conv := fmt[str + 1];
        k2 := k;
        if IsConversion(conv) {
          SendConversion(conv, args[k]);
          k2 := k + 1;
          SentThenRest(before, Converted(conv, args[k]).value,
                       Render(text[str + 2..], args[k2..]).value, sent);
        }
        str2 := str + 2;
      }
    }

    /** A byte of the format other than `%`: an LF goes out as CR LF. */
    method SendPlain(b: byte)
      modifies this`sent
      ensures sent == old(sent) + (if b == LF then [CR, LF] else [b])
    {
      if b == LF {
        var _ := Putc(CR);
      }
      var _ := Putc(b);
    }

    /** The `switch` of stm_printf for one of its four conversions. */
    method SendConversion(conv: byte, a: Arg)
      requires IsConversion(conv)
      requires Converted(conv, a).Some?
      modifies this`sent
      ensures sent == old(sent) + Converted(conv, a).value
    {
      if conv == CONV_D {
        SendDecimal(a.v);
      } else if conv == CONV_X {
        SendHex(a.v);
      } else if conv == CONV_C {
        var ch := (a.v % 256) as byte;
        var _ := Putc(ch);
      } else {
        var _ := Puts(a.mem, 0);
      }
    }

    /** `%d`: the decimal text of the argument, built in a 16-byte buffer and sent with stm_puts. */
    method SendDecimal(v: Int32)
      modifies this`sent
      ensures sent == old(sent) + Numeral(AsUint32(v), 10)
    {
      var res := new byte[16](_ => NUL);
      NumericTextFits(v);
      var end := DecToAscii(AsUint32(v), res, 0);
      var buf := res[..];
      CStrLenUnique(buf, 0, end);
      assert CStr(buf, 0) == buf[0..end];
      var _ := Puts(buf, 0);
    }

    /** `%x`: the `0x` text of the argument, built in a 16-byte buffer and sent with stm_puts. */
    method SendHex(v: Int32)
      modifies this`sent
      ensures sent == old(sent) + HexText(AsUint32(v))
    {
      var res := new byte[16](_ => NUL);
      NumericTextFits(v);
      var end := HexToAscii(AsUint32(v), res, 0);
      var buf := res[..];
      HexTextHasNoNul(AsUint32(v));
      CStrLenUnique(buf, 0, end);
      assert CStr(buf, 0) == buf[0..end];
      var _ := Puts(buf, 0);
    }
  }

  /** The hexadecimal text has no NUL in it. */
  lemma HexTextHasNoNul(dat: nat)
    ensures forall j :: 0 <= j < |HexText(dat)| ==> HexText(dat)[j] != NUL
  {
    var h := HexText(dat);
    forall j | 0 <= j < |h| ensures h[j] != NUL {
      if j >= 2 {
        assert h[j] == h[2..][j - 2];
      }
    }
  }

  /** stm_printf in the release build: sends nothing and returns 0. */
  method PrintfRelease(fmt: seq<byte>, args: seq<Arg>) returns (r: int)
    ensures r == 0
  {
    r := 0;
  }

  // ---------------------------------------------------------------------
  // Baud rate
  // ---------------------------------------------------------------------

  /**
   * The integer part of the divisor, as the 16-bit `br_interger`: for a
   * 32-bit clock it needs no truncation.
   */
  function BrrInteger(pclk: nat): (r: nat)
    ensures r < 0x1_0000
    ensures pclk < UINT32_LIMIT ==> r == pclk / (16 * BAUDRATE)
  {
    (pclk / (16 * BAUDRATE)) % 0x1_0000
  }

  /**
   * The fractional part of the divisor, as the 16-bit `br_fractionaldivider`:
   * for a 32-bit clock it is the low four bits of the quotient by the baud rate.
   */
  function BrrFraction(pclk: nat): (r: nat)
    ensures r < 0x1_0000
    ensures pclk < UINT32_LIMIT ==> r == (pclk / BAUDRATE) % 16
  {
    DivDiv(pclk);
    (pclk / BAUDRATE - BrrInteger(pclk) * 16) % 0x1_0000
  }

  /** C's `|` on non-negative integers, bit by bit from the lowest. */
  function BitOr(a: nat, b: nat): nat
    decreases a + b
  {
    if a == 0 && b == 0 then 0
    else 2 * BitOr(a / 2, b / 2) + (if a % 2 == 1 || b % 2 == 1 then 1 else 0)
  }

  /**
   * The BRR value: the integer part shifted up by four, ORed with the
   * fraction, in 16 bits. For any 32-bit peripheral clock it is the clock
   * divided by the baud rate, rounded down: the divisor the USART needs.
   */
  function Brr(pclk: nat): (r: nat)
    ensures r < 0x1_0000
    ensures pclk < UINT32_LIMIT ==> r == pclk / BAUDRATE
    ensures pclk < UINT32_LIMIT ==> r * BAUDRATE <= pclk < (r + 1) * BAUDRATE
  {
    BrrJoin(pclk);
    QuotientFits(pclk);
    BitOr(BrrInteger(pclk) * 16, BrrFraction(pclk)) % 0x1_0000
  }

  /** Putting the two parts back together with `<<4` and `|` gives the quotient again. */
  lemma {:induction false} BrrJoin(pclk: nat)
    ensures pclk < UINT32_LIMIT ==> BitOr(BrrInteger(pclk) * 16, BrrFraction(pclk)) % 0x1_0000 == pclk / BAUDRATE
  {
    if pclk < UINT32_LIMIT {
      DivDiv(pclk);
      QuotientFits(pclk);
      JoinQuotient(BrrInteger(pclk), BrrFraction(pclk), pclk / BAUDRATE);
    }
  }

  /** A 16-bit quotient split into its upper part and low four bits is rebuilt by `<<4` and `|`. */
  lemma {:induction false} JoinQuotient(i: nat, f: nat, q: nat)
    requires q < 0x1_0000 && i == q / 16 && f == q % 16
    ensures BitOr(i * 16, f) % 0x1_0000 == q
  {
    OrLowNibble(i, f);
    assert i * 16 + f == q;
  }

  /** The quotient of a 32-bit clock by the baud rate fits 16 bits, and it is rounded down. */
  lemma QuotientFits(pclk: nat)
    ensures pclk < UINT32_LIMIT ==> pclk / BAUDRATE < 0x1_0000
    ensures (pclk / BAUDRATE) * BAUDRATE <= pclk < (pclk / BAUDRATE + 1) * BAUDRATE
  {
  }

  /** Dividing by the baud rate and then by 16 is dividing by 16 times the baud rate. */
  lemma {:induction false} DivDiv(n: nat)
    ensures n / (16 * BAUDRATE) == (n / BAUDRATE) / 16
  {
    var q := n / BAUDRATE;
    var q2 := q / 16;
    assert n == q * BAUDRATE + n % BAUDRATE;
    assert q == q2 * 16 + q % 16;
    assert n == q2 * (16 * BAUDRATE) + ((q % 16) * BAUDRATE + n % BAUDRATE);
  }

  /** OR with a value that is zero adds nothing. */
  lemma {:induction false} BitOrZero(a: nat)
    ensures BitOr(a, 0) == a
    decreases a
  {
    if a != 0 {
      BitOrZero(a / 2);
    }
  }

  /** One step of BitOr on an even left operand. */
  lemma BitOrEven(a: nat, b: nat)
    ensures BitOr(2 * a, b) == 2 * BitOr(a, b / 2) + b % 2
  {
  }

  /** One more low bit: if `m | (f/2)` is their sum, so is `(2*m) | f`. */
  lemma OrEvenStep(m: nat, f: nat)
    requires BitOr(m, f / 2) == m + f / 2
    ensures BitOr(2 * m, f) == 2 * m + f
  {
    BitOrEven(m, f);
  }

  /** A value shifted up by four ORed with a 4-bit value is their sum. */
  lemma {:induction false} OrLowNibble(i: nat, f: nat)
    requires f < 16
    ensures BitOr(i * 16, f) == i * 16 + f
  {
    var f1, f2, f3 := f / 2, f / 4, f / 8;
    assert f1 / 2 == f2 && f2 / 2 == f3 && f3 / 2 == 0;
    var i2, i4, i8 := 2 * i, 4 * i, 8 * i;
    BitOrZero(i);
    OrEvenStep(i, f3);
    OrEvenStep(i2, f2);
    assert 2 * i2 == i4;
    OrEvenStep(i4, f1);
    assert 2 * i4 == i8;
    OrEvenStep(i8, f);
    assert i * 16 == 2 * i8;
  }
}
