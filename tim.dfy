/*
 * The STM32F30x general-purpose and advanced timer driver: the time-base
 * unit, the CR1 control bits, the output-compare channels 1 to 6 and the
 * channel-5 group bits. A timer is an object whose registers the driver
 * rewrites in place; which registers a call touches depends on the timer
 * instance it is given.
 *
 * Registers and the values ORed into them are bit sets (see module Bits).
 * The vendor masks (TIM_CR1_*, TIM_CCMRx_*, TIM_CCER_*, TIM_CR2_*,
 * TIM_CCR5_*) and the argument constants defined beside them are fields of
 * a `TimLayout`; each lemma states what it needs of them.
 */
module Tim {
  import opened Bits

  /** The timer instances the driver accepts. */
  datatype Instance = TIM1 | TIM2 | TIM3 | TIM4 | TIM6 | TIM7 | TIM8 | TIM15 | TIM16 | TIM17

  /** Timers whose counter can count down or centre-aligned: TIM1, TIM2, TIM3, TIM4, TIM8. */
  predicate HasCounterMode(t: Instance)
  {
    t == TIM1 || t == TIM8 || t == TIM2 || t == TIM3 || t == TIM4
  }

  /** The basic timers TIM6 and TIM7, which have no clock-division field. */
  predicate IsBasic(t: Instance)
  {
    t == TIM6 || t == TIM7
  }

  /** Timers with a repetition counter: TIM1, TIM8, TIM15, TIM16, TIM17. */
  predicate HasRepetitionCounter(t: Instance)
  {
    t == TIM1 || t == TIM8 || t == TIM15 || t == TIM16 || t == TIM17
  }

  /**
   * Whether `TIM_OCxInit` writes the complementary-output and idle-state
   * fields of channel `ch`: on channel 1 for the timers with a repetition
   * counter, on the other channels for TIM1 and TIM8 only.
   */
  predicate Complementary(t: Instance, ch: nat)
  {
    if ch == 1 then HasRepetitionCounter(t) else t == TIM1 || t == TIM8
  }

  /** The masks of one output-compare channel in CCMRx, CCER and CR2. */
  datatype Channel = Channel(
    ocm: Word32,    // OCxM in CCMRx
    ccs: Word32,    // CCxS in CCMRx (channels 1 to 4)
    cce: Word32,    // CCxE in CCER
    ccp: Word32,    // CCxP in CCER
    ccne: Word32,   // CCxNE in CCER (channels 1 to 3)
    ccnp: Word32,   // CCxNP in CCER (channels 1 to 3)
    ois: Word32,    // OISx in CR2
    oisn: Word32)   // OISxN in CR2 (channels 1 to 3)

  /** The vendor masks and argument constants the driver uses. */
  datatype TimLayout = TimLayout(
    cen: Word16, udis: Word16, urs: Word16, opm: Word16, dir: Word16,
    cms: Word16, arpe: Word16, ckd: Word16, uifremap: Word16,
    ch1: Channel, ch2: Channel, ch3: Channel, ch4: Channel, ch5: Channel, ch6: Channel,
    gc5c1: Word32, gc5c2: Word32,
    updateSourceGlobal: Word16,   // TIM_UpdateSource_Global
    pscReloadImmediate: Word16,   // TIM_PSCReloadMode_Immediate
    ckdDiv1: Word16,              // TIM_CKD_DIV1
    counterModeUp: Word16)        // TIM_CounterMode_Up
  {
    /** The masks of channel `ch`. */
    function Chan(ch: nat): Channel
      requires 1 <= ch <= 6
    {
      if ch == 1 then ch1 else if ch == 2 then ch2 else if ch == 3 then ch3
      else if ch == 4 then ch4 else if ch == 5 then ch5 else ch6
    }

    /** The counter-mode field of CR1: DIR and CMS together. */
    function CounterField(): Word16
    {
      dir + cms
    }
  }

  // ---------------------------------------------------------------------
  // Time base
  // ---------------------------------------------------------------------

  /** TIM_TimeBaseInitTypeDef. */
  datatype TimeBase = TimeBase(prescaler: Word16, counterMode: Word16, period: Word32,
                               clockDivision: Word16, repetitionCounter: Word16)

  /**
   * TIM_TimeBaseStructInit: the largest period (all 32 bits set), no
   * prescaling, no clock division, counting up, no repetition.
   */
  function DefaultTimeBase(lay: TimLayout): (tb: TimeBase)
    ensures forall i: nat :: i in tb.period <==> i < 32
    ensures tb.prescaler == {} && tb.repetitionCounter == {}
    ensures tb.clockDivision == lay.ckdDiv1 && tb.counterMode == lay.counterModeUp
  {
    TimeBase(prescaler := {}, counterMode := lay.counterModeUp, period := Below(32),
             clockDivision := lay.ckdDiv1, repetitionCounter := {})
  }

  /**
   * The CR1 value TIM_TimeBaseInit writes: the counter mode replaced on the
   * timers that have one, the clock division replaced on all but TIM6/7.
   */
  function TimeBaseCr1(lay: TimLayout, t: Instance, cr1: Word16, tb: TimeBase): (r: Word16)
    ensures IsBasic(t) ==> r == cr1
    ensures !IsBasic(t) ==> tb.clockDivision <= r
    ensures HasCounterMode(t) && tb.counterMode !! lay.ckd ==> tb.counterMode <= r
  {
    var counted := if HasCounterMode(t) then Replace(cr1, lay.CounterField(), tb.counterMode, 16) else cr1;
    if !IsBasic(t) then Replace(counted, lay.ckd, tb.clockDivision, 16) else counted
  }

  /**
   * What TimeBaseInit does to CR1: the counter-mode field reads back as the
   * requested mode exactly on TIM1/2/3/4/8 and is kept elsewhere, the
   * clock-division field reads back as requested except on TIM6/7, a basic
   * timer's CR1 is written back as read, and no other bit moves.
   */
  lemma TimeBaseCr1Fields(lay: TimLayout, t: Instance, cr1: Word16, tb: TimeBase)
    requires lay.CounterField() !! lay.ckd
    requires tb.counterMode <= lay.CounterField() && tb.clockDivision <= lay.ckd
    ensures var r := TimeBaseCr1(lay, t, cr1, tb);
      && (HasCounterMode(t) ==> r * lay.CounterField() == tb.counterMode)
      && (!HasCounterMode(t) ==> r * lay.CounterField() == cr1 * lay.CounterField())
      && (!IsBasic(t) ==> r * lay.ckd == tb.clockDivision)
      && (IsBasic(t) ==> r == cr1)
      && r - (lay.CounterField() + lay.ckd) == cr1 - (lay.CounterField() + lay.ckd)
  {
    var f := lay.CounterField();
    var counted := if HasCounterMode(t) then Replace(cr1, f, tb.counterMode, 16) else cr1;
    assert counted * lay.ckd == cr1 * lay.ckd;
    assert counted - f == cr1 - f;
  }

  /**
   * The default structure, applied to a timer that has both fields, leaves
   * CR1 counting up with no clock division.
   */
  lemma DefaultTimeBaseCountsUp(lay: TimLayout, t: Instance, cr1: Word16)
    requires lay.CounterField() !! lay.ckd
    requires lay.counterModeUp <= lay.CounterField() && lay.ckdDiv1 <= lay.ckd
    requires HasCounterMode(t)
    ensures TimeBaseCr1(lay, t, cr1, DefaultTimeBase(lay)) * lay.CounterField() == lay.counterModeUp
    ensures TimeBaseCr1(lay, t, cr1, DefaultTimeBase(lay)) * lay.ckd == lay.ckdDiv1
  {
    TimeBaseCr1Fields(lay, t, cr1, DefaultTimeBase(lay));
  }

  /** URS after TIM_UpdateRequestConfig: set for any source but the global one. */
  function UpdateRequestCr1(lay: TimLayout, cr1: Word16, source: Word16): (r: Word16)
    ensures lay.urs != {} ==> (lay.urs <= r <==> source != lay.updateSourceGlobal)
    ensures lay.urs != {} ==> (lay.urs !! r <==> source == lay.updateSourceGlobal)
    ensures r - lay.urs == cr1 - lay.urs
  {
    SetIf(cr1, lay.urs, source != lay.updateSourceGlobal, 16)
  }

  // ---------------------------------------------------------------------
  // Output compare
  // ---------------------------------------------------------------------

  /** TIM_OCInitTypeDef. */
  datatype OcInit = OcInit(mode: Word32, outputState: Word32, outputNState: Word32, pulse: Word32,
                           polarity: Word32, nPolarity: Word32, idleState: Word32, nIdleState: Word32)

  /** The shift of the OCxM value: channels 2, 4 and 6 sit 8 bits up in their CCMR. */
  function ModeShift(ch: nat): nat
  {
    if ch % 2 == 0 then 8 else 0
  }

  /** The shift of channel `ch`'s CCER fields: 4 bits per channel. */
  function CcerShift(ch: nat): nat
    requires 1 <= ch
  {
    4 * (ch - 1)
  }

  /** The shift of channel `ch`'s idle-state bits in CR2. */
  function IdleShift(ch: nat): nat
    requires 1 <= ch <= 6
  {
    if ch <= 4 then 2 * (ch - 1) else if ch == 5 then 16 else 18
  }

  /**
   * The CCMRx value TIM_OCxInit writes: OCxM (and CCxS on channels 1 to 4)
   * cleared, then the mode ORed in at the channel's offset.
   */
  function OcCcmr(lay: TimLayout, ch: nat, ccmr: Word32, mode: Word32): (r: Word32)
    requires 1 <= ch <= 6
    ensures Shl(mode, ModeShift(ch), 32) <= r
    ensures r * lay.Chan(ch).ocm <= Shl(mode, ModeShift(ch), 32)
    ensures ch <= 4 ==> r * lay.Chan(ch).ccs <= Shl(mode, ModeShift(ch), 32)
  {
    var m := lay.Chan(ch);
    var cleared := AndNot(ccmr, m.ocm, 32);
    var selected := if ch <= 4 then AndNot(cleared, m.ccs, 32) else cleared;
    selected + Shl(mode, ModeShift(ch), 32)
  }

  /** The CCER value after the channel is disabled and its output fields are written. */
  function OcCcerMain(lay: TimLayout, ch: nat, ccer: Word32, c: OcInit): (r: Word32)
    requires 1 <= ch <= 6
    ensures var out := Shl(c.polarity, CcerShift(ch), 32) + Shl(c.outputState, CcerShift(ch), 32);
      out <= r && r * (lay.Chan(ch).cce + lay.Chan(ch).ccp) <= out
  {
    var m := lay.Chan(ch);
    var k := CcerShift(ch);
    AndNot(AndNot(ccer, m.cce, 32), m.ccp, 32) + Shl(c.polarity, k, 32) + Shl(c.outputState, k, 32)
  }

  /**
   * The CCER value TIM_OCxInit writes: the main output fields, then on the
   * complementary channels 1 to 3 the N polarity and the N state.
   */
  function OcCcer(lay: TimLayout, t: Instance, ch: nat, ccer: Word32, c: OcInit): (r: Word32)
    requires 1 <= ch <= 6
    ensures ch <= 3 && Complementary(t, ch) ==>
      var nOut := Shl(c.outputNState, CcerShift(ch), 32);
      nOut <= r && r * lay.Chan(ch).ccne <= nOut
    ensures !(ch <= 3 && Complementary(t, ch)) ==> r == OcCcerMain(lay, ch, ccer, c)
  {
    var m := lay.Chan(ch);
    var k := CcerShift(ch);
    var main := OcCcerMain(lay, ch, ccer, c);
    if ch <= 3 && Complementary(t, ch) then
      AndNot(AndNot(main, m.ccnp, 32) + Shl(c.nPolarity, k, 32), m.ccne, 32) + Shl(c.outputNState, k, 32)
    else main
  }

  /** Idle-state bits of channel `ch` as they are meant to land in CR2. */
  function IdleBits(ch: nat, idle: Word32): Word32
    requires 1 <= ch <= 6
  {
    Shl(idle, IdleShift(ch), 32)
  }

  /**
   * The CR2 value TIM_OCxInit writes: written back as read unless the
   * channel is complementary on this timer; then OISx (and OISxN on
   * channels 1 to 3) are replaced by the idle states.
   */
  function OcCr2(lay: TimLayout, t: Instance, ch: nat, cr2: Word32, c: OcInit): (r: Word32)
    requires 1 <= ch <= 6
    ensures !Complementary(t, ch) ==> r == cr2
    ensures Complementary(t, ch) ==> IdleBits(ch, c.idleState) <= r
    ensures Complementary(t, ch) && ch > 3 ==> r * lay.Chan(ch).ois <= IdleBits(ch, c.idleState)
  {
    var m := lay.Chan(ch);
    if !Complementary(t, ch) then cr2
    else if ch <= 3 then
      AndNot(AndNot(cr2, m.ois, 32), m.oisn, 32) + IdleBits(ch, c.idleState) + IdleBits(ch, c.nIdleState)
    else AndNot(cr2, m.ois, 32) + IdleBits(ch, c.idleState)
  }

  /**
   * The mode field of channel `ch` reads back as the mode at the channel's
   * offset, CCxS is cleared (the channel is an output) and every other CCMR
   * bit keeps its value.
   */
  lemma OcModeWritten(lay: TimLayout, ch: nat, ccmr: Word32, mode: Word32)
    requires 1 <= ch <= 6
    requires Shl(mode, ModeShift(ch), 32) <= lay.Chan(ch).ocm
    requires lay.Chan(ch).ocm !! lay.Chan(ch).ccs
    ensures var r, m := OcCcmr(lay, ch, ccmr, mode), lay.Chan(ch);
      && r * m.ocm == Shl(mode, ModeShift(ch), 32)
      && (ch <= 4 ==> r !! m.ccs)
      && (ch <= 4 ==> r - (m.ocm + m.ccs) == ccmr - (m.ocm + m.ccs))
      && (ch > 4 ==> r - m.ocm == ccmr - m.ocm)
  {
  }

  /**
   * After TIM_OCxInit the polarity and enable fields of channel `ch` read
   * back as the requested polarity and output state, and no CCER bit
   * outside them moves, when the channel has no complementary output here.
   */
  lemma OcOutputWritten(lay: TimLayout, ch: nat, ccer: Word32, c: OcInit)
    requires 1 <= ch <= 6
    requires lay.Chan(ch).ccp !! lay.Chan(ch).cce
    requires Shl(c.polarity, CcerShift(ch), 32) <= lay.Chan(ch).ccp
    requires Shl(c.outputState, CcerShift(ch), 32) <= lay.Chan(ch).cce
    ensures var r, m := OcCcerMain(lay, ch, ccer, c), lay.Chan(ch);
      && r * m.ccp == Shl(c.polarity, CcerShift(ch), 32)
      && r * m.cce == Shl(c.outputState, CcerShift(ch), 32)
      && r - (m.ccp + m.cce) == ccer - (m.ccp + m.cce)
  {
  }

  /**
   * On a complementary channel the N polarity and N enable fields read back
   * as requested and the main fields keep the values just written.
   */
  lemma OcComplementaryWritten(lay: TimLayout, t: Instance, ch: nat, ccer: Word32, c: OcInit)
    requires 1 <= ch <= 3 && Complementary(t, ch)
    requires var m := lay.Chan(ch); PairwiseDisjoint([m.ccp, m.cce, m.ccnp, m.ccne])
    requires Shl(c.nPolarity, CcerShift(ch), 32) <= lay.Chan(ch).ccnp
    requires Shl(c.outputNState, CcerShift(ch), 32) <= lay.Chan(ch).ccne
    ensures var r, main, m := OcCcer(lay, t, ch, ccer, c), OcCcerMain(lay, ch, ccer, c), lay.Chan(ch);
      && r * m.ccnp == Shl(c.nPolarity, CcerShift(ch), 32)
      && r * m.ccne == Shl(c.outputNState, CcerShift(ch), 32)
      && r * (m.ccp + m.cce) == main * (m.ccp + m.cce)
      && r - (m.ccnp + m.ccne) == main - (m.ccnp + m.ccne)
  {
    var m := lay.Chan(ch);
    var ps := [m.ccp, m.cce, m.ccnp, m.ccne];
    assert ps[0] == m.ccp && ps[1] == m.cce && ps[2] == m.ccnp && ps[3] == m.ccne;
    assert m.ccnp !! m.ccne && m.ccp !! m.ccnp && m.cce !! m.ccnp && m.ccp !! m.ccne && m.cce !! m.ccne;
  }

  /**
   * A channel without a complementary output on this timer leaves CCER's
   * N fields and all of CR2 as they were.
   */
  lemma OcPlainChannel(lay: TimLayout, t: Instance, ch: nat, ccer: Word32, cr2: Word32, c: OcInit)
    requires 1 <= ch <= 6 && !Complementary(t, ch)
    ensures OcCr2(lay, t, ch, cr2, c) == cr2
    ensures OcCcer(lay, t, ch, ccer, c) == OcCcerMain(lay, ch, ccer, c)
  {
  }

  /**
   * On a complementary channel the idle-state fields of CR2 read back as
   * the requested idle states at the channel's offset, and no other CR2
   * bit moves.
   */
  lemma OcIdleWritten(lay: TimLayout, t: Instance, ch: nat, cr2: Word32, c: OcInit)
    requires 1 <= ch <= 6 && Complementary(t, ch)
    requires lay.Chan(ch).ois !! lay.Chan(ch).oisn
    requires IdleBits(ch, c.idleState) <= lay.Chan(ch).ois
    requires ch <= 3 ==> IdleBits(ch, c.nIdleState) <= lay.Chan(ch).oisn
    ensures var r, m := OcCr2(lay, t, ch, cr2, c), lay.Chan(ch);
      && r * m.ois == IdleBits(ch, c.idleState)
      && (ch <= 3 ==> r * m.oisn == IdleBits(ch, c.nIdleState))
      && (ch <= 3 ==> r - (m.ois + m.oisn) == cr2 - (m.ois + m.oisn))
      && (ch > 3 ==> r - m.ois == cr2 - m.ois)
  {
  }

  /**
   * The channel-6 idle-state term as written: the shifted value is cast to
   * 16 bits before it is ORed into CR2.
   */
  function Oc6IdleAsWritten(idle: Word32): (r: Word16)
    ensures r == {}
  {
    ShlBits(idle, 18, 16);
    Shl(idle, 18, 16)
  }

  /**
   * As written, TIM_OC6Init can never set OIS6: whatever idle state is
   * requested, the 16-bit cast leaves nothing to OR in, so CR2 only has
   * OIS6 cleared. Any idle state holding a bit i below 14 shows it: the
   * as-written term is empty, while the corrected 32-bit term holds i + 18.
   * The set {0} is one such input. Which of those bits is OIS6 is fixed by
   * the layout, not by this lemma.
   */
  lemma Oc6IdleStateLost(lay: TimLayout, cr2: Word32, idle: Word32)
    ensures Oc6IdleAsWritten(idle) == {}
    ensures AndNot(cr2, lay.ch6.ois, 32) + Oc6IdleAsWritten(idle) == AndNot(cr2, lay.ch6.ois, 32)
    ensures lay.ch6.ois !! AndNot(cr2, lay.ch6.ois, 32) + Oc6IdleAsWritten(idle)
    ensures forall i :: i in idle && i < 14 ==> i + 18 in IdleBits(6, idle)
    ensures Oc6IdleAsWritten({0}) == {} && IdleBits(6, {0}) == {18}
  {
    ShlBits(idle, 18, 16);
    ShlBits(idle, 18, 32);
    ShlBits({0}, 18, 16);
    ShlBits({0}, 18, 32);
  }

  /** TIM_OCxInit applied twice with the same structure is the same as once. */
  lemma OcInitIdempotent(lay: TimLayout, t: Instance, ch: nat, ccmr: Word32, ccer: Word32, cr2: Word32, c: OcInit)
    requires 1 <= ch <= 6
    requires Shl(c.mode, ModeShift(ch), 32) <= lay.Chan(ch).ocm
    requires lay.Chan(ch).ocm !! lay.Chan(ch).ccs
    requires var m := lay.Chan(ch); PairwiseDisjoint([m.ccp, m.cce, m.ccnp, m.ccne])
    requires Shl(c.polarity, CcerShift(ch), 32) <= lay.Chan(ch).ccp
    requires Shl(c.outputState, CcerShift(ch), 32) <= lay.Chan(ch).cce
    requires Shl(c.nPolarity, CcerShift(ch), 32) <= lay.Chan(ch).ccnp
    requires Shl(c.outputNState, CcerShift(ch), 32) <= lay.Chan(ch).ccne
    requires lay.Chan(ch).ois !! lay.Chan(ch).oisn
    requires IdleBits(ch, c.idleState) <= lay.Chan(ch).ois
    requires IdleBits(ch, c.nIdleState) <= lay.Chan(ch).oisn
    ensures var ccmr1 := OcCcmr(lay, ch, ccmr, c.mode);
      OcCcmr(lay, ch, ccmr1, c.mode) == ccmr1
    ensures var ccer1 := OcCcer(lay, t, ch, ccer, c);
      OcCcer(lay, t, ch, ccer1, c) == ccer1
    ensures var cr21 := OcCr2(lay, t, ch, cr2, c);
      OcCr2(lay, t, ch, cr21, c) == cr21
  {
    var m := lay.Chan(ch);
    var ps := [m.ccp, m.cce, m.ccnp, m.ccne];
    assert ps[0] == m.ccp && ps[1] == m.cce && ps[2] == m.ccnp && ps[3] == m.ccne;
  }

  // ---------------------------------------------------------------------
  // The timer
  // ---------------------------------------------------------------------

  /** One timer's registers, as the driver sees them. */
  class Timer {
    const instance: Instance
    const layout: TimLayout
    var CR1: Word16
    var CR2: Word32
    var CCMR1: Word32
    var CCMR2: Word32
    var CCMR3: Word32
    var CCER: Word32
    var ARR: Word32
    var PSC: Word16
    var RCR: Word16
    var EGR: Word16
    var CCR1: Word32
    var CCR2: Word32
    var CCR3: Word32
    var CCR4: Word32
    var CCR5: Word32
    var CCR6: Word32

    /** A timer in its reset state: every register clear. */
    constructor (instance: Instance, layout: TimLayout)
      ensures this.instance == instance && this.layout == layout
      ensures CR1 == {} && CR2 == {} && CCER == {}
      ensures CCMR1 == {} && CCMR2 == {} && CCMR3 == {}
    {
      this.instance := instance;
      this.layout := layout;
      CR1, CR2, CCMR1, CCMR2, CCMR3, CCER := {}, {}, {}, {}, {}, {};
      ARR, PSC, RCR, EGR := {}, {}, {}, {};
      CCR1, CCR2, CCR3, CCR4, CCR5, CCR6 := {}, {}, {}, {}, {}, {};
    }

    /** TIM_TimeBaseInit. */
    method TimeBaseInit(tb: TimeBase)
      modifies this`CR1, this`ARR, this`PSC, this`RCR, this`EGR
      ensures CR1 == TimeBaseCr1(layout, instance, old(CR1), tb)
      ensures ARR == tb.period && PSC == tb.prescaler
      ensures RCR == if HasRepetitionCounter(instance) then tb.repetitionCounter else old(RCR)
      ensures EGR == layout.pscReloadImmediate
    {
      var tmpcr1: set<nat> := CR1;
      if instance == TIM1 || instance == TIM8 || instance == TIM2 || instance == TIM3 || instance == TIM4 {
        tmpcr1 := AndNot(tmpcr1, layout.dir + layout.cms, 16);
        tmpcr1 := tmpcr1 + tb.counterMode;
      }
      if instance != TIM6 && instance != TIM7 {
        tmpcr1 := AndNot(tmpcr1, layout.ckd, 16);
        tmpcr1 := tmpcr1 + tb.clockDivision;
      }
      assert tmpcr1 == TimeBaseCr1(layout, instance, old(CR1), tb);
      CR1 := tmpcr1;
      ARR := tb.period;
      PSC := tb.prescaler;
      if instance == TIM1 || instance == TIM8 || instance == TIM15 || instance == TIM16 || instance == TIM17 {
        RCR := tb.repetitionCounter;
      }
      EGR := layout.pscReloadImmediate;
    }

    /** TIM_PrescalerConfig: the prescaler and the reload mode, written as given. */
    method PrescalerConfig(prescaler: Word16, reloadMode: Word16)
      modifies this`PSC, this`EGR
      ensures PSC == prescaler && EGR == reloadMode
    {
      PSC := prescaler;
      EGR := reloadMode;
    }

    /** TIM_CounterModeConfig: replace DIR and CMS by the mode. */
    method CounterModeConfig(mode: Word16)
      modifies this`CR1
      ensures CR1 == Replace(old(CR1), layout.CounterField(), mode, 16)
    {
      var tmpcr1: set<nat> := CR1;
      tmpcr1 := AndNot(tmpcr1, layout.dir + layout.cms, 16);
      tmpcr1 := tmpcr1 + mode;
      CR1 := tmpcr1;
    }

    /** TIM_SelectOnePulseMode: clear OPM, then OR in the mode. */
    method SelectOnePulseMode(mode: Word16)
      modifies this`CR1
      ensures CR1 == Replace(old(CR1), layout.opm, mode, 16)
    {
      CR1 := AndNot(CR1, layout.opm, 16);
      CR1 := CR1 + mode;
    }

    /** TIM_SetClockDivision: clear CKD, then OR in the division. */
    method SetClockDivision(division: Word16)
      modifies this`CR1
      ensures CR1 == Replace(old(CR1), layout.ckd, division, 16)
    {
      CR1 := AndNot(CR1, layout.ckd, 16);
      CR1 := CR1 + division;
    }

    /** Set `mask` in CR1 when `on`, clear it otherwise. */
    method SetCr1Bit(mask: Word16, on: bool)
      modifies this`CR1
      ensures CR1 == SetIf(old(CR1), mask, on, 16)
    {
      if on {
        CR1 := CR1 + mask;
      } else {
        CR1 := AndNot(CR1, mask, 16);
      }
    }

    /** TIM_UpdateDisableConfig: UDIS follows the new state. */
    method UpdateDisableConfig(enable: bool)
      modifies this`CR1
      ensures CR1 == SetIf(old(CR1), layout.udis, enable, 16)
    {
      SetCr1Bit(layout.udis, enable);
    }

    /** TIM_UpdateRequestConfig: URS set for any source but the global one. */
    method UpdateRequestConfig(source: Word16)
      modifies this`CR1
      ensures CR1 == UpdateRequestCr1(layout, old(CR1), source)
    {
      SetCr1Bit(layout.urs, source != layout.updateSourceGlobal);
    }

    /** TIM_UIFRemap: UIFREMAP follows the new state. */
    method UifRemap(enable: bool)
      modifies this`CR1
      ensures CR1 == SetIf(old(CR1), layout.uifremap, enable, 16)
    {
      SetCr1Bit(layout.uifremap, enable);
    }

    /** TIM_ARRPreloadConfig: ARPE follows the new state. */
    method ArrPreloadConfig(enable: bool)
      modifies this`CR1
      ensures CR1 == SetIf(old(CR1), layout.arpe, enable, 16)
    {
      SetCr1Bit(layout.arpe, enable);
    }

    /** TIM_Cmd: CEN follows the new state. */
    method Cmd(enable: bool)
      modifies this`CR1
      ensures CR1 == SetIf(old(CR1), layout.cen, enable, 16)
    {
      SetCr1Bit(layout.cen, enable);
    }

    /** TIM_SelectGC5C1: GC5C1 in CCR5 follows the new state. */
    method SelectGc5c1(enable: bool)
      modifies this`CCR5
      ensures CCR5 == SetIf(old(CCR5), layout.gc5c1, enable, 32)
    {
      if enable {
        CCR5 := CCR5 + layout.gc5c1;
      } else {
        CCR5 := AndNot(CCR5, layout.gc5c1, 32);
      }
    }

    /** TIM_SelectGC5C2: GC5C2 in CCR5 follows the new state. */
    method SelectGc5c2(enable: bool)
      modifies this`CCR5
      ensures CCR5 == SetIf(old(CCR5), layout.gc5c2, enable, 32)
    {
      if enable {
        CCR5 := CCR5 + layout.gc5c2;
      } else {
        CCR5 := AndNot(CCR5, layout.gc5c2, 32);
      }
    }

    /** TIM_OC1Init. */
    method Oc1Init(c: OcInit)
      modifies this`CCER, this`CR2, this`CCMR1, this`CCR1
      ensures CCMR1 == OcCcmr(layout, 1, old(CCMR1), c.mode)
      ensures CCER == OcCcer(layout, instance, 1, old(CCER), c)
      ensures CR2 == OcCr2(layout, instance, 1, old(CR2), c)
      ensures CCR1 == c.pulse
    {
      var m := layout.ch1;
      assert layout.Chan(1) == m && ModeShift(1) == 0 && CcerShift(1) == 0 && IdleShift(1) == 0;
      ShlZero(c.mode, 32);
      ShlZero(c.polarity, 32);
      ShlZero(c.outputState, 32);
      ShlZero(c.nPolarity, 32);
      ShlZero(c.outputNState, 32);
      ShlZero(c.idleState, 32);
      ShlZero(c.nIdleState, 32);
      CCER := AndNot(CCER, m.cce, 32);
      var tmpccer: set<nat> := CCER;
      var tmpcr2: set<nat> := CR2;
      var tmpccmrx: set<nat> := CCMR1;
      tmpccmrx := AndNot(tmpccmrx, m.ocm, 32);
      tmpccmrx := AndNot(tmpccmrx, m.ccs, 32);
      tmpccmrx := tmpccmrx + c.mode;
      tmpccer := AndNot(tmpccer, m.ccp, 32);
      tmpccer := tmpccer + c.polarity;
      tmpccer := tmpccer + c.outputState;
      if instance == TIM1 || instance == TIM8 || instance == TIM15 || instance == TIM16 || instance == TIM17 {
        tmpccer := AndNot(tmpccer, m.ccnp, 32);
        tmpccer := tmpccer + c.nPolarity;
        tmpccer := AndNot(tmpccer, m.ccne, 32);
        tmpccer := tmpccer + c.outputNState;
        tmpcr2 := AndNot(tmpcr2, m.ois, 32);
        tmpcr2 := AndNot(tmpcr2, m.oisn, 32);
        tmpcr2 := tmpcr2 + c.idleState;
        tmpcr2 := tmpcr2 + c.nIdleState;
      }
      assert tmpcr2 == OcCr2(layout, instance, 1, old(CR2), c);
      assert tmpccmrx == OcCcmr(layout, 1, old(CCMR1), c.mode);
      assert tmpccer == OcCcer(layout, instance, 1, old(CCER), c);
      CR2 := tmpcr2;
      CCMR1 := tmpccmrx;
      CCR1 := c.pulse;
      CCER := tmpccer;
    }

    /** TIM_OC2Init. */
    method Oc2Init(c: OcInit)
      modifies this`CCER, this`CR2, this`CCMR1, this`CCR2
      ensures CCMR1 == OcCcmr(layout, 2, old(CCMR1), c.mode)
      ensures CCER == OcCcer(layout, instance, 2, old(CCER), c)
      ensures CR2 == OcCr2(layout, instance, 2, old(CR2), c)
      ensures CCR2 == c.pulse
    {
      var m := layout.ch2;
      assert layout.Chan(2) == m && ModeShift(2) == 8 && CcerShift(2) == 4 && IdleShift(2) == 2;
      CCER := AndNot(CCER, m.cce, 32);
      var tmpccer: set<nat> := CCER;
      var tmpcr2: set<nat> := CR2;
      var tmpccmrx: set<nat> := CCMR1;
      tmpccmrx := AndNot(tmpccmrx, m.ocm, 32);
      tmpccmrx := AndNot(tmpccmrx, m.ccs, 32);
      tmpccmrx := tmpccmrx + Shl(c.mode, 8, 32);
      tmpccer := AndNot(tmpccer, m.ccp, 32);
      tmpccer := tmpccer + Shl(c.polarity, 4, 32);
      tmpccer := tmpccer + Shl(c.outputState, 4, 32);
      if instance == TIM1 || instance == TIM8 {
        tmpccer := AndNot(tmpccer, m.ccnp, 32);
        tmpccer := tmpccer + Shl(c.nPolarity, 4, 32);
        tmpccer := AndNot(tmpccer, m.ccne, 32);
        tmpccer := tmpccer + Shl(c.outputNState, 4, 32);
        tmpcr2 := AndNot(tmpcr2, m.ois, 32);
        tmpcr2 := AndNot(tmpcr2, m.oisn, 32);
        tmpcr2 := tmpcr2 + Shl(c.idleState, 2, 32);
        tmpcr2 := tmpcr2 + Shl(c.nIdleState, 2, 32);
      }
      assert tmpcr2 == OcCr2(layout, instance, 2, old(CR2), c);
      assert tmpccmrx == OcCcmr(layout, 2, old(CCMR1), c.mode);
      assert tmpccer == OcCcer(layout, instance, 2, old(CCER), c);
      CR2 := tmpcr2;
      CCMR1 := tmpccmrx;
      CCR2 := c.pulse;
      CCER := tmpccer;
    }

    /** TIM_OC3Init. */
    method Oc3Init(c: OcInit)
      modifies this`CCER, this`CR2, this`CCMR2, this`CCR3
      ensures CCMR2 == OcCcmr(layout, 3, old(CCMR2), c.mode)
      ensures CCER == OcCcer(layout, instance, 3, old(CCER), c)
      ensures CR2 == OcCr2(layout, instance, 3, old(CR2), c)
      ensures CCR3 == c.pulse
    {
      var m := layout.ch3;
      assert layout.Chan(3) == m && ModeShift(3) == 0 && CcerShift(3) == 8 && IdleShift(3) == 4;
      ShlZero(c.mode, 32);
      CCER := AndNot(CCER, m.cce, 32);
      var tmpccer: set<nat> := CCER;
      var tmpcr2: set<nat> := CR2;
      var tmpccmrx: set<nat> := CCMR2;
      tmpccmrx := AndNot(tmpccmrx, m.ocm, 32);
      tmpccmrx := AndNot(tmpccmrx, m.ccs, 32);
      tmpccmrx := tmpccmrx + c.mode;
      tmpccer := AndNot(tmpccer, m.ccp, 32);
      tmpccer := tmpccer + Shl(c.polarity, 8, 32);
      tmpccer := tmpccer + Shl(c.outputState, 8, 32);
      if instance == TIM1 || instance == TIM8 {
        tmpccer := AndNot(tmpccer, m.ccnp, 32);
        tmpccer := tmpccer + Shl(c.nPolarity, 8, 32);
        tmpccer := AndNot(tmpccer, m.ccne, 32);
        tmpccer := tmpccer + Shl(c.outputNState, 8, 32);
        tmpcr2 := AndNot(tmpcr2, m.ois, 32);
        tmpcr2 := AndNot(tmpcr2, m.oisn, 32);
        tmpcr2 := tmpcr2 + Shl(c.idleState, 4, 32);
        tmpcr2 := tmpcr2 + Shl(c.nIdleState, 4, 32);
      }
      assert tmpcr2 == OcCr2(layout, instance, 3, old(CR2), c);
      assert tmpccmrx == OcCcmr(layout, 3, old(CCMR2), c.mode);
      assert tmpccer == OcCcer(layout, instance, 3, old(CCER), c);
      CR2 := tmpcr2;
      CCMR2 := tmpccmrx;
      CCR3 := c.pulse;
      CCER := tmpccer;
    }

    /** TIM_OC4Init. */
    method Oc4Init(c: OcInit)
      modifies this`CCER, this`CR2, this`CCMR2, this`CCR4
      ensures CCMR2 == OcCcmr(layout, 4, old(CCMR2), c.mode)
      ensures CCER == OcCcer(layout, instance, 4, old(CCER), c)
      ensures CR2 == OcCr2(layout, instance, 4, old(CR2), c)
      ensures CCR4 == c.pulse
    {
      var m := layout.ch4;
      assert layout.Chan(4) == m && ModeShift(4) == 8 && CcerShift(4) == 12 && IdleShift(4) == 6;
      CCER := AndNot(CCER, m.cce, 32);
      var tmpccer: set<nat> := CCER;
      var tmpcr2: set<nat> := CR2;
      var tmpccmrx: set<nat> := CCMR2;
      tmpccmrx := AndNot(tmpccmrx, m.ocm, 32);
      tmpccmrx := AndNot(tmpccmrx, m.ccs, 32);
      tmpccmrx := tmpccmrx + Shl(c.mode, 8, 32);
      tmpccer := AndNot(tmpccer, m.ccp, 32);
      tmpccer := tmpccer + Shl(c.polarity, 12, 32);
      tmpccer := tmpccer + Shl(c.outputState, 12, 32);
      if instance == TIM1 || instance == TIM8 {
        tmpcr2 := AndNot(tmpcr2, m.ois, 32);
        tmpcr2 := tmpcr2 + Shl(c.idleState, 6, 32);
      }
      assert tmpcr2 == OcCr2(layout, instance, 4, old(CR2), c);
      assert tmpccmrx == OcCcmr(layout, 4, old(CCMR2), c.mode);
      assert tmpccer == OcCcer(layout, instance, 4, old(CCER), c);
      CR2 := tmpcr2;
      CCMR2 := tmpccmrx;
      CCR4 := c.pulse;
      CCER := tmpccer;
    }

    /** TIM_OC5Init. */
    method Oc5Init(c: OcInit)
      modifies this`CCER, this`CR2, this`CCMR3, this`CCR5
      ensures CCMR3 == OcCcmr(layout, 5, old(CCMR3), c.mode)
      ensures CCER == OcCcer(layout, instance, 5, old(CCER), c)
      ensures CR2 == OcCr2(layout, instance, 5, old(CR2), c)
      ensures CCR5 == c.pulse
    {
      var m := layout.ch5;
      assert layout.Chan(5) == m && ModeShift(5) == 0 && CcerShift(5) == 16 && IdleShift(5) == 16;
      ShlZero(c.mode, 32);
      CCER := AndNot(CCER, m.cce, 32);
      var tmpccer: set<nat> := CCER;
      var tmpcr2: set<nat> := CR2;
      var tmpccmrx: set<nat> := CCMR3;
      tmpccmrx := AndNot(tmpccmrx, m.ocm, 32);
      tmpccmrx := tmpccmrx + c.mode;
      tmpccer := AndNot(tmpccer, m.ccp, 32);
      tmpccer := tmpccer + Shl(c.polarity, 16, 32);
      tmpccer := tmpccer + Shl(c.outputState, 16, 32);
      if instance == TIM1 || instance == TIM8 {
        tmpcr2 := AndNot(tmpcr2, m.ois, 32);
        tmpcr2 := tmpcr2 + Shl(c.idleState, 16, 32);
      }
      assert tmpcr2 == OcCr2(layout, instance, 5, old(CR2), c);
      assert tmpccmrx == OcCcmr(layout, 5, old(CCMR3), c.mode);
      assert tmpccer == OcCcer(layout, instance, 5, old(CCER), c);
      CR2 := tmpcr2;
      CCMR3 := tmpccmrx;
      CCR5 := c.pulse;
      CCER := tmpccer;
    }

    /**
     * TIM_OC6Init, with the idle state ORed in at bit 18 of the 32-bit CR2
     * as for the other channels (see Oc6IdleStateLost for the code as written).
     */
    method Oc6Init(c: OcInit)
      modifies this`CCER, this`CR2, this`CCMR3, this`CCR6
      ensures CCMR3 == OcCcmr(layout, 6, old(CCMR3), c.mode)
      ensures CCER == OcCcer(layout, instance, 6, old(CCER), c)
      ensures CR2 == OcCr2(layout, instance, 6, old(CR2), c)
      ensures CCR6 == c.pulse
    {
      var m := layout.ch6;
      assert layout.Chan(6) == m && ModeShift(6) == 8 && CcerShift(6) == 20 && IdleShift(6) == 18;
      CCER := AndNot(CCER, m.cce, 32);
      var tmpccer: set<nat> := CCER;
      var tmpcr2: set<nat> := CR2;
      var tmpccmrx: set<nat> := CCMR3;
      tmpccmrx := AndNot(tmpccmrx, m.ocm, 32);
      tmpccmrx := tmpccmrx + Shl(c.mode, 8, 32);
      tmpccer := AndNot(tmpccer, m.ccp, 32);
      tmpccer := tmpccer + Shl(c.polarity, 20, 32);
      tmpccer := tmpccer + Shl(c.outputState, 20, 32);
      if instance == TIM1 || instance == TIM8 {
        tmpcr2 := AndNot(tmpcr2, m.ois, 32);
        tmpcr2 := tmpcr2 + Shl(c.idleState, 18, 32);
      }
      assert tmpcr2 == OcCr2(layout, instance, 6, old(CR2), c);
      assert tmpccmrx == OcCcmr(layout, 6, old(CCMR3), c.mode);
      assert tmpccer == OcCcer(layout, instance, 6, old(CCER), c);
      CR2 := tmpcr2;
      CCMR3 := tmpccmrx;
      CCR6 := c.pulse;
      CCER := tmpccer;
    }
  }
}
