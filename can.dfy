/*
 * Initialisation of the bxCAN controller (`CAN_Init`) and the part of the
 * filter-bank setup that `CAN_FilterInit` performs up to the filter-mode
 * selection (Libraries/STM32F37x_StdPeriph_Driver/src/stm32f37x_can.c).
 *
 * The controller is a class whose fields are its registers. MCR, FMR,
 * FA1R, FS1R and FM1R are changed bit by bit and are held as `Word32`
 * images (the set of their 1 bits); BTR and the filter-bank words FR1/FR2
 * are written whole from a packing formula and are held as `bv32`.
 *
 * The only register the driver reads is the INAK bit of MSR, which the
 * silicon changes on its own. It is supplied by an oracle: `InakAt(script, k)` says
 * whether the k-th read of MSR finds INAK set, and `msrReads` counts the
 * reads made so far.
 */
module Can {
  import opened Bits

  /** Bound on each acknowledge wait loop. */
  const INAK_TIMEOUT: nat := 0xFFFF

  /** Filter init mode bit of FMR: bit 0. */
  const FMR_FINIT: Word32 := {0}

  /** The MCR bits `CAN_Init` touches, as the vendor header defines them. */
  datatype McrLayout = McrLayout(
    inrq: Word32, sleep: Word32,
    ttcm: Word32, abom: Word32, awum: Word32, nart: Word32, rflm: Word32, txfp: Word32)
  {
    function Masks(): seq<Word32>
    {
      [inrq, sleep, ttcm, abom, awum, nart, rflm, txfp]
    }

    /** What the driver relies on: every flag is a bit of its own. */
    predicate WellFormed()
    {
      (forall i :: 0 <= i < |Masks()| ==> Masks()[i] != {}) && PairwiseDisjoint(Masks())
    }

    /** Every MCR bit that `CAN_Init` may change. */
    function Touched(): Word32
    {
      inrq + sleep + ttcm + abom + awum + nart + rflm + txfp
    }
  }

  /** Whether read number `k` of MSR finds INAK set. */
  function InakAt(script: seq<bool>, k: nat): bool
  {
    k < |script| && script[k]
  }

  /** `CAN_InitTypeDef`; each option flag is true when its field is `ENABLE`. */
  datatype CanInit = CanInit(
    prescaler: bv16, mode: bv8, sjw: bv8, bs1: bv8, bs2: bv8,
    ttcm: bool, abom: bool, awum: bool, nart: bool, rflm: bool, txfp: bool)

  datatype InitStatus = Failed | Success

  /**
   * The bit timing word: `Mode<<30 | SJW<<24 | BS1<<16 | BS2<<20 | (Prescaler-1)`,
   * in 32 bits. When every field fits below the position where the next one
   * starts, each field can be read back from the word.
   */
  function BitTiming(c: CanInit): (w: bv32)
    ensures c.mode < 4 && c.sjw < 64 && c.bs2 < 16 && c.bs1 < 16 && 1 <= c.prescaler ==>
      && w >> 30 == c.mode as bv32
      && (w >> 24) & 0x3F == c.sjw as bv32
      && (w >> 20) & 0xF == c.bs2 as bv32
      && (w >> 16) & 0xF == c.bs1 as bv32
      && w & 0xFFFF == (c.prescaler - 1) as bv32
  {
    (c.mode as bv32 << 30) | (c.sjw as bv32 << 24) | (c.bs1 as bv32 << 16)
    | (c.bs2 as bv32 << 20) | (c.prescaler as bv32 - 1)
  }

  /**
   * Number of MSR reads an acknowledge wait loop makes when its first read
   * is read number `start` and `count` iterations have already run: the
   * loop reads until INAK equals `want` or the counter reaches
   * `INAK_TIMEOUT`.
   */
  function WaitReads(script: seq<bool>, start: nat, want: bool, count: nat): (n: nat)
    requires count <= INAK_TIMEOUT
    ensures 1 <= n <= INAK_TIMEOUT - count + 1
    decreases INAK_TIMEOUT - count
  {
    if InakAt(script, start) == want || count == INAK_TIMEOUT then 1
    else 1 + WaitReads(script, start + 1, want, count + 1)
  }

  /**
   * The wait loop stops at the first read that finds INAK equal to `want`,
   * or, if there is none, after its last permitted read.
   */
  lemma {:induction false} WaitReadsStops(script: seq<bool>, start: nat, want: bool, count: nat)
    requires count <= INAK_TIMEOUT
    ensures var n := WaitReads(script, start, want, count);
      && (forall k :: start <= k < start + n - 1 ==> InakAt(script, k) != want)
      && (InakAt(script, start + n - 1) == want || n == INAK_TIMEOUT - count + 1)
    decreases INAK_TIMEOUT - count
  {
    if InakAt(script, start) != want && count != INAK_TIMEOUT {
      WaitReadsStops(script, start + 1, want, count + 1);
    }
  }

  /**
   * Conversely, a wait loop that sees INAK differ from `want` on `m` reads
   * and then either sees `want` or runs out of iterations makes exactly
   * `m + 1` reads.
   */
  lemma {:induction false} WaitReadsExact(script: seq<bool>, start: nat, want: bool, count: nat, m: nat)
    requires count + m <= INAK_TIMEOUT
    requires forall k :: start <= k < start + m ==> InakAt(script, k) != want
    requires InakAt(script, start + m) == want || count + m == INAK_TIMEOUT
    ensures WaitReads(script, start, want, count) == m + 1
    decreases m
  {
    if m > 0 {
      WaitReadsExact(script, start + 1, want, count + 1, m - 1);
    }
  }

  /** The MSR read at which the first acknowledge check is made. */
  function EnterCheck(script: seq<bool>, start: nat): nat
  {
    start + WaitReads(script, start, true, 0)
  }

  /** The MSR read at which the second acknowledge check is made. */
  function LeaveCheck(script: seq<bool>, start: nat): nat
  {
    EnterCheck(script, start) + 1 + WaitReads(script, EnterCheck(script, start) + 1, false, 0)
  }

  /** MCR after the six option flags are written from the init structure. */
  function WithOptions(lay: McrLayout, c: CanInit, mcr: Word32): (r: Word32)
    ensures var opts := lay.ttcm + lay.abom + lay.awum + lay.nart + lay.rflm + lay.txfp;
      r - opts == mcr - opts
    ensures c.txfp ==> lay.txfp <= r
    ensures !c.txfp ==> lay.txfp !! r
  {
    var m1 := SetIf(mcr, lay.ttcm, c.ttcm, 32);
    var m2 := SetIf(m1, lay.abom, c.abom, 32);
    var m3 := SetIf(m2, lay.awum, c.awum, 32);
    var m4 := SetIf(m3, lay.nart, c.nart, 32);
    var m5 := SetIf(m4, lay.rflm, c.rflm, 32);
    SetIf(m5, lay.txfp, c.txfp, 32)
  }

  /** MCR once sleep mode is left and initialisation is requested. */
  function RequestInit(lay: McrLayout, mcr: Word32): (r: Word32)
    ensures lay.inrq <= r
    ensures (r - lay.inrq) !! lay.sleep
    ensures r - (lay.inrq + lay.sleep) == mcr - (lay.inrq + lay.sleep)
  {
    AndNot(mcr, lay.sleep, 32) + lay.inrq
  }

  /** The state `CAN_Init` leaves behind. */
  datatype InitResult = InitResult(status: InitStatus, mcr: Word32, btr: bv32, nextRead: nat)

  /**
   * What `CAN_Init` does, from the MCR and BTR it starts with and the MSR
   * reads numbered from `start` on: `nextRead` is the number of the next read.
   */
  function InitOutcome(lay: McrLayout, c: CanInit, mcr: Word32, btr: bv32,
                       script: seq<bool>, start: nat): (r: InitResult)
    ensures start + 2 <= r.nextRead <= start + 2 * INAK_TIMEOUT + 4
    ensures !InakAt(script, EnterCheck(script, start)) ==>
      r.status == Failed && r.btr == btr && r.mcr == RequestInit(lay, mcr)
    ensures r.status == Success ==>
      InakAt(script, EnterCheck(script, start)) && r.btr == BitTiming(c) && r.mcr !! lay.inrq
    ensures InakAt(script, EnterCheck(script, start)) ==>
      (r.status == Success <==> !InakAt(script, LeaveCheck(script, start)))
    ensures InakAt(script, EnterCheck(script, start)) ==>
      r.btr == BitTiming(c) && r.nextRead == LeaveCheck(script, start) + 1
  {
    var requested := RequestInit(lay, mcr);
    var enter := EnterCheck(script, start);
    if !InakAt(script, enter) then
      InitResult(Failed, requested, btr, enter + 1)
    else
      var leave := LeaveCheck(script, start);
      InitResult(if InakAt(script, leave) then Failed else Success,
                 AndNot(WithOptions(lay, c, requested), lay.inrq, 32),
                 BitTiming(c), leave + 1)
  }

  /**
   * When the first check finds INAK clear, `CAN_Init` fails with SLEEP
   * cleared and INRQ set, no option bit written and BTR untouched.
   */
  lemma InitFailsWithoutAck(lay: McrLayout, c: CanInit, mcr: Word32, btr: bv32,
                            script: seq<bool>, start: nat)
    requires lay.WellFormed()
    requires !InakAt(script, EnterCheck(script, start))
    ensures var r := InitOutcome(lay, c, mcr, btr, script, start);
      && r.status == Failed
      && lay.inrq <= r.mcr && r.mcr !! lay.sleep
      && r.mcr - (lay.inrq + lay.sleep) == mcr - (lay.inrq + lay.sleep)
      && r.btr == btr
  {
    LayoutDisjoint(lay);
  }

  /**
   * A controller that never raises INAK makes `CAN_Init` fail after
   * exactly `INAK_TIMEOUT + 2` reads: the whole first wait, then the check.
   */
  lemma {:induction false} InitNeverAcknowledged(lay: McrLayout, c: CanInit, mcr: Word32, btr: bv32,
                                                 script: seq<bool>, start: nat)
    requires forall k :: start <= k <= start + INAK_TIMEOUT + 1 ==> !InakAt(script, k)
    ensures InitOutcome(lay, c, mcr, btr, script, start).status == Failed
    ensures InitOutcome(lay, c, mcr, btr, script, start).nextRead == start + INAK_TIMEOUT + 2
    ensures InitOutcome(lay, c, mcr, btr, script, start).btr == btr
  {
    WaitReadsExact(script, start, true, 0, INAK_TIMEOUT);
  }

  /**
   * A controller that acknowledges the request but never leaves
   * initialisation mode makes `CAN_Init` fail after the whole second wait,
   * with the bit timing already written to BTR.
   */
  lemma {:induction false} InitNeverLeaves(lay: McrLayout, c: CanInit, mcr: Word32, btr: bv32,
                                           script: seq<bool>, start: nat)
    requires forall k :: EnterCheck(script, start) <= k <= EnterCheck(script, start) + INAK_TIMEOUT + 2 ==>
      InakAt(script, k)
    ensures var r := InitOutcome(lay, c, mcr, btr, script, start);
      r.status == Failed && r.btr == BitTiming(c) && r.nextRead == EnterCheck(script, start) + INAK_TIMEOUT + 3
  {
    SecondWaitTimesOut(script, EnterCheck(script, start));
  }

  /**
   * A second wait starting after the check at read `enter` that sees INAK
   * set throughout runs to its bound, and its check finds INAK still set.
   */
  lemma {:induction false} SecondWaitTimesOut(script: seq<bool>, enter: nat)
    requires forall k :: enter < k <= enter + INAK_TIMEOUT + 2 ==> InakAt(script, k)
    ensures enter + 1 + WaitReads(script, enter + 1, false, 0) == enter + INAK_TIMEOUT + 2
    ensures InakAt(script, enter + INAK_TIMEOUT + 2)
  {
    WaitReadsExact(script, enter + 1, false, 0, INAK_TIMEOUT);
  }

  /**
   * Once initialisation is acknowledged, each option flag of MCR is set
   * exactly when the init structure enables it, SLEEP and INRQ are clear,
   * every other MCR bit keeps its value and BTR holds the bit timing word.
   */
  lemma InitConfigures(lay: McrLayout, c: CanInit, mcr: Word32, btr: bv32,
                       script: seq<bool>, start: nat)
    requires lay.WellFormed()
    requires InakAt(script, EnterCheck(script, start))
    ensures var r := InitOutcome(lay, c, mcr, btr, script, start);
      && (c.ttcm ==> lay.ttcm <= r.mcr) && (!c.ttcm ==> lay.ttcm !! r.mcr)
      && (c.abom ==> lay.abom <= r.mcr) && (!c.abom ==> lay.abom !! r.mcr)
      && (c.awum ==> lay.awum <= r.mcr) && (!c.awum ==> lay.awum !! r.mcr)
      && (c.nart ==> lay.nart <= r.mcr) && (!c.nart ==> lay.nart !! r.mcr)
      && (c.rflm ==> lay.rflm <= r.mcr) && (!c.rflm ==> lay.rflm !! r.mcr)
      && (c.txfp ==> lay.txfp <= r.mcr) && (!c.txfp ==> lay.txfp !! r.mcr)
      && r.mcr !! lay.sleep && r.mcr !! lay.inrq
      && r.mcr - lay.Touched() == mcr - lay.Touched()
      && r.btr == BitTiming(c)
  {
    LayoutDisjoint(lay);
    var requested := RequestInit(lay, mcr);
    var w := WithOptions(lay, c, requested);
    OptionsWritten(lay, c, requested);
    OptionsKeepRest(lay, c, requested);
    assert InitOutcome(lay, c, mcr, btr, script, start).mcr == w - lay.inrq;
    assert requested !! lay.sleep;
    assert w - lay.Touched() == mcr - lay.Touched();
  }

  /** The pairwise disjointness of a well-formed layout, flag by flag. */
  lemma LayoutDisjoint(lay: McrLayout)
    requires lay.WellFormed()
    ensures lay.inrq !! lay.sleep
    ensures lay.inrq !! lay.ttcm && lay.inrq !! lay.abom && lay.inrq !! lay.awum
    ensures lay.inrq !! lay.nart && lay.inrq !! lay.rflm && lay.inrq !! lay.txfp
    ensures lay.sleep !! lay.ttcm && lay.sleep !! lay.abom && lay.sleep !! lay.awum
    ensures lay.sleep !! lay.nart && lay.sleep !! lay.rflm && lay.sleep !! lay.txfp
    ensures lay.ttcm !! lay.abom && lay.ttcm !! lay.awum && lay.ttcm !! lay.nart
    ensures lay.ttcm !! lay.rflm && lay.ttcm !! lay.txfp
    ensures lay.abom !! lay.awum && lay.abom !! lay.nart && lay.abom !! lay.rflm && lay.abom !! lay.txfp
    ensures lay.awum !! lay.nart && lay.awum !! lay.rflm && lay.awum !! lay.txfp
    ensures lay.nart !! lay.rflm && lay.nart !! lay.txfp && lay.rflm !! lay.txfp
  {
    var ms := lay.Masks();
    assert ms[0] == lay.inrq && ms[1] == lay.sleep && ms[2] == lay.ttcm && ms[3] == lay.abom;
    assert ms[4] == lay.awum && ms[5] == lay.nart && ms[6] == lay.rflm && ms[7] == lay.txfp;
  }

  /**
   * Writing the option flags sets each one exactly when it is enabled and
   * moves no other bit of MCR.
   */
  lemma OptionsWritten(lay: McrLayout, c: CanInit, mcr: Word32)
    requires lay.WellFormed()
    ensures var m := WithOptions(lay, c, mcr);
      && (c.ttcm ==> lay.ttcm <= m) && (!c.ttcm ==> lay.ttcm !! m)
      && (c.abom ==> lay.abom <= m) && (!c.abom ==> lay.abom !! m)
      && (c.awum ==> lay.awum <= m) && (!c.awum ==> lay.awum !! m)
      && (c.nart ==> lay.nart <= m) && (!c.nart ==> lay.nart !! m)
      && (c.rflm ==> lay.rflm <= m) && (!c.rflm ==> lay.rflm !! m)
      && (c.txfp ==> lay.txfp <= m) && (!c.txfp ==> lay.txfp !! m)
  {
    LayoutDisjoint(lay);
    var m1 := SetIf(mcr, lay.ttcm, c.ttcm, 32);
    var m2 := SetIf(m1, lay.abom, c.abom, 32);
    var m3 := SetIf(m2, lay.awum, c.awum, 32);
    var m4 := SetIf(m3, lay.nart, c.nart, 32);
    var m5 := SetIf(m4, lay.rflm, c.rflm, 32);
    var m := SetIf(m5, lay.txfp, c.txfp, 32);
    assert (c.ttcm ==> lay.ttcm <= m) && (!c.ttcm ==> lay.ttcm !! m) by {
      SetIfElsewhere(m1, lay.abom, c.abom, 32, lay.ttcm);
      SetIfElsewhere(m2, lay.awum, c.awum, 32, lay.ttcm);
      SetIfElsewhere(m3, lay.nart, c.nart, 32, lay.ttcm);
      SetIfElsewhere(m4, lay.rflm, c.rflm, 32, lay.ttcm);
      SetIfElsewhere(m5, lay.txfp, c.txfp, 32, lay.ttcm);
    }
    assert (c.abom ==> lay.abom <= m) && (!c.abom ==> lay.abom !! m) by {
      SetIfElsewhere(m2, lay.awum, c.awum, 32, lay.abom);
      SetIfElsewhere(m3, lay.nart, c.nart, 32, lay.abom);
      SetIfElsewhere(m4, lay.rflm, c.rflm, 32, lay.abom);
      SetIfElsewhere(m5, lay.txfp, c.txfp, 32, lay.abom);
    }
    assert (c.awum ==> lay.awum <= m) && (!c.awum ==> lay.awum !! m) by {
      SetIfElsewhere(m3, lay.nart, c.nart, 32, lay.awum);
      SetIfElsewhere(m4, lay.rflm, c.rflm, 32, lay.awum);
      SetIfElsewhere(m5, lay.txfp, c.txfp, 32, lay.awum);
    }
    assert (c.nart ==> lay.nart <= m) && (!c.nart ==> lay.nart !! m) by {
      SetIfElsewhere(m4, lay.rflm, c.rflm, 32, lay.nart);
      SetIfElsewhere(m5, lay.txfp, c.txfp, 32, lay.nart);
    }
    assert (c.rflm ==> lay.rflm <= m) && (!c.rflm ==> lay.rflm !! m) by {
      SetIfElsewhere(m5, lay.txfp, c.txfp, 32, lay.rflm);
    }
  }

  /** Writing the option flags leaves INRQ, SLEEP and every bit outside the layout alone. */
  lemma OptionsKeepRest(lay: McrLayout, c: CanInit, mcr: Word32)
    requires lay.WellFormed()
    ensures var m := WithOptions(lay, c, mcr);
      && m * (lay.inrq + lay.sleep) == mcr * (lay.inrq + lay.sleep)
      && m - lay.Touched() == mcr - lay.Touched()
  {
    LayoutDisjoint(lay);
    var m1 := SetIf(mcr, lay.ttcm, c.ttcm, 32);
    var m2 := SetIf(m1, lay.abom, c.abom, 32);
    var m3 := SetIf(m2, lay.awum, c.awum, 32);
    var m4 := SetIf(m3, lay.nart, c.nart, 32);
    var m5 := SetIf(m4, lay.rflm, c.rflm, 32);
    var m := SetIf(m5, lay.txfp, c.txfp, 32);
    var keep := lay.inrq + lay.sleep;
    SetIfElsewhere(mcr, lay.ttcm, c.ttcm, 32, keep);
    SetIfElsewhere(m1, lay.abom, c.abom, 32, keep);
    SetIfElsewhere(m2, lay.awum, c.awum, 32, keep);
    SetIfElsewhere(m3, lay.nart, c.nart, 32, keep);
    SetIfElsewhere(m4, lay.rflm, c.rflm, 32, keep);
    SetIfElsewhere(m5, lay.txfp, c.txfp, 32, keep);
    var t := lay.Touched();
    assert m1 - t == mcr - t;
    assert m2 - t == m1 - t;
    assert m3 - t == m2 - t;
    assert m4 - t == m3 - t;
    assert m5 - t == m4 - t;
    assert m - t == m5 - t;
  }

  /**
   * A controller that raises INAK at read `a` (no later than the first
   * timeout) and drops it again at read `b` (no later than the second)
   * brings `CAN_Init` to `Success`; its last read is the check at `b + 1`.
   */
  lemma InitSucceedsOnTimelyAck(lay: McrLayout, c: CanInit, mcr: Word32, btr: bv32,
                                script: seq<bool>, start: nat, a: nat, b: nat)
    requires start <= a <= start + INAK_TIMEOUT
    requires a + 2 <= b <= a + 2 + INAK_TIMEOUT
    requires forall k :: start <= k ==> (InakAt(script, k) <==> a <= k < b)
    ensures InitOutcome(lay, c, mcr, btr, script, start).status == Success
    ensures InitOutcome(lay, c, mcr, btr, script, start).nextRead == b + 2
  {
    WaitReadsExact(script, start, true, 0, a - start);
    assert EnterCheck(script, start) == a + 1;
    WaitReadsExact(script, a + 2, false, 0, b - (a + 2));
  }

  /**
   * Running `CAN_Init` again with the same structure, once both runs are
   * acknowledged, leaves MCR and BTR as the first run left them.
   */
  lemma InitIdempotent(lay: McrLayout, c: CanInit, mcr: Word32, btr: bv32,
                       script: seq<bool>, start: nat, script2: seq<bool>, start2: nat)
    requires lay.WellFormed()
    requires InakAt(script, EnterCheck(script, start)) && InakAt(script2, EnterCheck(script2, start2))
    ensures var r := InitOutcome(lay, c, mcr, btr, script, start);
      var r2 := InitOutcome(lay, c, r.mcr, r.btr, script2, start2);
      r2.mcr == r.mcr && r2.btr == r.btr
  {
    var r := InitOutcome(lay, c, mcr, btr, script, start);
    var r2 := InitOutcome(lay, c, r.mcr, r.btr, script2, start2);
    InitConfigures(lay, c, mcr, btr, script, start);
    InitConfigures(lay, c, r.mcr, r.btr, script2, start2);
    assert r2.mcr == r.mcr by {
      forall i | i in r2.mcr ensures i in r.mcr {
        assert i < 32;
        if i !in lay.Touched() {
        }
      }
      forall i | i in r.mcr ensures i in r2.mcr {
        assert i < 32;
        if i !in lay.Touched() {
        }
      }
    }
  }

  /** `CAN_FilterScale`: only the two scales the driver tests for act. */
  datatype FilterScale = Scale16Bit | Scale32Bit | ScaleOther

  /** `CAN_FilterMode`: the model covers the IdMask case only. */
  datatype FilterMode = IdMask | IdList

  /** `CAN_FilterInitTypeDef`. */
  datatype FilterInit = FilterInit(
    idHigh: bv16, idLow: bv16, maskIdHigh: bv16, maskIdLow: bv16,
    fifo: bv16, number: nat, mode: FilterMode, scale: FilterScale, activation: bool)

  /** `((uint32_t)1) << n`: the bit of filter bank `n`. */
  function BankBit(n: nat): (r: Word32)
    requires n < 32
    ensures r == {n}
  {
    var r := Shl({0}, n, 32);
    assert n in r;
    assert forall j :: j in r ==> j == n;
    r
  }

  /** The upper and lower halves of a filter-bank word. */
  function High(w: bv32): bv16
  {
    (w >> 16) as bv16
  }

  function Low(w: bv32): bv16
  {
    (w & 0xFFFF) as bv16
  }

  /** `(0xFFFF & hi) << 16 | (0xFFFF & lo)`: one filter-bank word, whose halves read back as `hi` and `lo`. */
  function Pack(hi: bv16, lo: bv16): (w: bv32)
    ensures High(w) == hi
    ensures Low(w) == lo
  {
    ((0xFFFF & hi as bv32) << 16) | (0xFFFF & lo as bv32)
  }

  /** FS1R after the scale of bank `f.number` is written. */
  function ScaleBits(fs1r: Word32, f: FilterInit): (r: Word32)
    requires f.number < 32
    ensures f.scale == Scale16Bit ==> f.number !in r
    ensures f.scale == Scale32Bit ==> f.number in r
    ensures f.scale == ScaleOther ==> r == fs1r
    ensures r - {f.number} == fs1r - {f.number}
  {
    match f.scale
    case Scale16Bit => AndNot(fs1r, BankBit(f.number), 32)
    case Scale32Bit => fs1r + BankBit(f.number)
    case ScaleOther => fs1r
  }

  /** The FR1 and FR2 words written for bank `f.number`, if its scale is one the driver knows. */
  function BankWords(f: FilterInit): (w: (bv32, bv32))
    requires f.scale != ScaleOther
    ensures f.scale == Scale16Bit ==>
      && High(w.0) == f.maskIdLow && Low(w.0) == f.idLow
      && High(w.1) == f.maskIdHigh && Low(w.1) == f.idHigh
    ensures f.scale == Scale32Bit ==>
      && High(w.0) == f.idHigh && Low(w.0) == f.idLow
      && High(w.1) == f.maskIdHigh && Low(w.1) == f.maskIdLow
  {
    if f.scale == Scale16Bit then (Pack(f.maskIdLow, f.idLow), Pack(f.maskIdHigh, f.idHigh))
    else (Pack(f.idHigh, f.idLow), Pack(f.maskIdHigh, f.maskIdLow))
  }

  /** A bank's words after `FilterInit`: new words for a known scale, the old ones otherwise. */
  function BankUpdate(words: seq<bv32>, f: FilterInit, first: bool): (r: seq<bv32>)
    requires f.number < |words|
    ensures |r| == |words|
    ensures forall i :: 0 <= i < |words| && i != f.number ==> r[i] == words[i]
    ensures f.scale == ScaleOther ==> r == words
    ensures f.scale != ScaleOther ==> r[f.number] == (if first then BankWords(f).0 else BankWords(f).1)
  {
    if f.scale == ScaleOther then words
    else words[f.number := if first then BankWords(f).0 else BankWords(f).1]
  }

  /**
   * Writing two configurations to the same bank, the second with a known
   * scale, leaves the bank as the second alone would: the scale bit and
   * both words carry nothing over from the first.
   */
  lemma ReconfigureLeavesNoResidue(fs1r: Word32, words: seq<bv32>, f1: FilterInit, f2: FilterInit, first: bool)
    requires f1.number == f2.number < 32 && f1.number < |words|
    requires f2.scale != ScaleOther
    ensures ScaleBits(ScaleBits(fs1r, f1), f2) == ScaleBits(fs1r, f2)
    ensures BankUpdate(BankUpdate(words, f1, first), f2, first) == BankUpdate(words, f2, first)
  {
  }

  /** A bxCAN controller: its registers and the oracle for its MSR reads. */
  class CanController {
    const layout: McrLayout
    /** INAK as each read of MSR finds it. */
    const script: seq<bool>
    var msrReads: nat
    var MCR: Word32
    var BTR: bv32
    var FMR: Word32
    var FA1R: Word32
    var FS1R: Word32
    var FM1R: Word32
    /** FR1 and FR2 of each filter bank. */
    const FR1: array<bv32>
    const FR2: array<bv32>

    ghost predicate Valid()
    {
      FR1 != FR2 && FR1.Length == FR2.Length <= 32
    }

    constructor (layout: McrLayout, script: seq<bool>, banks: nat)
      requires banks <= 32
      ensures Valid() && fresh(FR1) && fresh(FR2) && FR1.Length == banks
      ensures this.layout == layout && this.script == script && msrReads == 0
    {
      this.layout := layout;
      this.script := script;
      msrReads := 0;
      MCR := {};
      BTR := 0;
      FMR := {};
      FA1R := {};
      FS1R := {};
      FM1R := {};
      FR1 := new bv32[banks];
      FR2 := new bv32[banks];
    }

    /** One read of MSR: whether INAK is set. */
    method ReadInak() returns (inak: bool)
      modifies this`msrReads
      ensures inak == InakAt(script, old(msrReads)) && msrReads == old(msrReads) + 1
    {
      inak := InakAt(script, msrReads);
      msrReads := msrReads + 1;
    }

    /**
     * One acknowledge wait loop: read MSR until INAK equals `want` or the
     * counter reaches `INAK_TIMEOUT`.
     */
    method AwaitInak(want: bool)
      modifies this`msrReads
      ensures msrReads == old(msrReads) + WaitReads(script, old(msrReads), want, 0)
    {
      ghost var start := msrReads;
      var waitAck: nat := 0;
      var seen := ReadInak();
      while seen != want && waitAck != INAK_TIMEOUT
        invariant waitAck <= INAK_TIMEOUT
        invariant msrReads == start + waitAck + 1
        invariant seen == InakAt(script, start + waitAck)
        invariant forall k :: start <= k < start + waitAck ==> InakAt(script, k) != want
        decreases INAK_TIMEOUT - waitAck
      {
        waitAck := waitAck + 1;
        seen := ReadInak();
      }
      WaitReadsExact(script, start, want, 0, waitAck);
    }

    /** `CAN_Init`: the request/acknowledge handshake and the MCR and BTR writes. */
    method Init(c: CanInit) returns (status: InitStatus)
      modifies this`MCR, this`BTR, this`msrReads
      ensures InitResult(status, MCR, BTR, msrReads)
              == InitOutcome(layout, c, old(MCR), old(BTR), script, old(msrReads))
    {
      ghost var start := msrReads;
      status := Failed;
      MCR := AndNot(MCR, layout.sleep, 32);
      MCR := MCR + layout.inrq;
      ghost var requested := MCR;
      assert requested == RequestInit(layout, old(MCR));

      AwaitInak(true);
      assert msrReads == EnterCheck(script, start);
      var acked := ReadInak();
      if !acked {
        status := Failed;
      } else {
        WriteOptions(c);
        BTR := BitTiming(c);
        MCR := AndNot(MCR, layout.inrq, 32);

        AwaitInak(false);
        assert msrReads == LeaveCheck(script, start);
        acked := ReadInak();
        if acked {
          status := Failed;
        } else {
          status := Success;
        }
      }
    }

    /** The six option flags of `CAN_Init`, each set when enabled and cleared otherwise. */
    method WriteOptions(c: CanInit)
      modifies this`MCR
      ensures MCR == WithOptions(layout, c, old(MCR))
    {
      SetFlag(layout.ttcm, c.ttcm);
      SetFlag(layout.abom, c.abom);
      SetFlag(layout.awum, c.awum);
      SetFlag(layout.nart, c.nart);
      SetFlag(layout.rflm, c.rflm);
      SetFlag(layout.txfp, c.txfp);
    }

    /** `if (on) MCR |= mask; else MCR &= ~(uint32_t)mask;` */
    method SetFlag(mask: Word32, on: bool)
      modifies this`MCR
      ensures MCR == SetIf(old(MCR), mask, on, 32)
    {
      if on {
        MCR := MCR + mask;
      } else {
        MCR := AndNot(MCR, mask, 32);
      }
    }

    /**
     * `CAN_FilterInit` up to the filter-mode selection: enter filter init
     * mode, deactivate the bank, write its scale and its two words, and
     * clear its mode bit for IdMask.
     */
    method FilterInit(f: FilterInit)
      requires Valid() && f.number < FR1.Length
      modifies this`FMR, this`FA1R, this`FS1R, this`FM1R, FR1, FR2
      ensures FMR == old(FMR) + FMR_FINIT
      ensures FA1R == old(FA1R) - {f.number}
      ensures FS1R == ScaleBits(old(FS1R), f)
      ensures FM1R == if f.mode == IdMask then old(FM1R) - {f.number} else old(FM1R)
      ensures FR1[..] == BankUpdate(old(FR1[..]), f, true)
      ensures FR2[..] == BankUpdate(old(FR2[..]), f, false)
    {
      var bit := BankBit(f.number);
      FMR := FMR + FMR_FINIT;
      FA1R := AndNot(FA1R, bit, 32);
      if f.scale == Scale16Bit {
        FS1R := AndNot(FS1R, bit, 32);
        FR1[f.number] := Pack(f.maskIdLow, f.idLow);
        FR2[f.number] := Pack(f.maskIdHigh, f.idHigh);
      }
      if f.scale == Scale32Bit {
        FS1R := FS1R + bit;
        FR1[f.number] := Pack(f.idHigh, f.idLow);
        FR2[f.number] := Pack(f.maskIdHigh, f.maskIdLow);
      }
      if f.mode == IdMask {
        FM1R := AndNot(FM1R, bit, 32);
      }
    }
  }
}
