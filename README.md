# Board support core of an STM32 USB HID demo, modelled in Dafny

This project models the parts of the firmware that have sequential logic:

- **`misc_lib.c`**: the small string and number library. It covers the decimal and hexadecimal encoders `DECToASCII` and `HexToASCII`, and the buffer and string routines `Memcpy`, `MemSet`, `StrCat`, `StrLen`, `StrNLen` and `MemCmp`.
  - Module `MiscLib`, file `misc_lib.dfy`.
  - Buffers are `array<byte>` (a pointer is an array plus an offset), and the routines are methods with loops.
  - `Memcpy` and `MemSet` state their results byte by byte. Each other method is proved against a specification function: `DigitsOf`, `Numeral`, `HexText`, `CStr`, `CStrLen`, `BoundedLen`, `FirstDifference` or `Appended`.
  - The properties of those functions are proved as lemmas. They include the decimal round trip, the digit-count bounds and the concatenation shape.
- **`stm32f37x_can.c`**: `CAN_Init` and `CAN_FilterInit` up to the filter-mode selection.
  - Module `Can`, file `can.dfy`.
  - The controller is a class whose fields are its registers.
  - MCR, FMR, FA1R, FS1R and FM1R are bit images, modelled as the set of their 1 bits (module `Bits`, file `bits.dfy`).
  - BTR and the filter-bank words are `bv32`.
  - The INAK bit of MSR changes on its own, so its reads come from an oracle: a sequence of booleans, one per read.
  - `Init` is proved equal to the specification function `InitOutcome`. The handshake, the bounded waits, the option bits and the bit-timing word are lemmas about that function.
- **`stm32f30x_tim.c`**: the time-base setup, the CR1 field and bit setters, the GC5Cx setters and `TIM_OC1Init` to `TIM_OC6Init`.
  - Module `Tim`, file `tim.dfy`.
  - A timer is a class with its register images as fields. Which registers an operation touches depends on the timer instance, as in the driver.
  - Each method is proved equal to a register-update function. Lemmas show that the right field reads back the argument and that every other bit is kept.
- **`debug.c`**: `stm_putc`, `stm_puts`, `stm_printf` in both builds, and the USART1 baud-rate divisor computed in `init_debug_fun`.
  - Module `Debug`, file `debug.dfy`.
  - The port is a class whose one field is the sequence of bytes sent so far.
  - `Printf` is proved against the specification function `Render`, which gives the bytes a format and its arguments produce.
  - The BRR computation is a function whose contract states it is the clock divided by the baud rate.

The vendor header bit masks (`CAN_MCR_TTCM`, `TIM_CR1_CMS`, `TIM_CCER_CC1E` and the rest) are not part of this model. They are abstract layout values (`McrLayout`, `TimLayout`), and the lemmas assume only that they are non-empty and disjoint where the driver relies on it. The constants defined in the `.c` files themselves are used concretely: `INAK_TIMEOUT` = 0xFFFF, `FMR_FINIT` = 1 and `BAUDRATE` = 115200.

`char` is unsigned, as on the ARM target, so every byte is 0..255 and `MemCmp` returns the difference of two unsigned bytes. `stm_printf`'s `%c` sends the low eight bits of its `int` argument.

## Model

| member | source | states |
|---|---|---|
| Bits.AndNot | Libraries/STM32F30x_StdPeriph_Driver/src/stm32f30x_tim.c:352-353 | `value & ~mask` in a W-bit register keeps exactly the value's bits outside the mask |
| Bits.SetIf | Libraries/STM32F30x_StdPeriph_Driver/src/stm32f30x_tim.c:433-439 | the enable-or-disable pattern: the mask ends up all set when enabling and all clear when disabling, and no other bit changes |
| Bits.Replace | Libraries/STM32F30x_StdPeriph_Driver/src/stm32f30x_tim.c:350-359 | clear a field then OR in a value: the value's bits are set, every bit outside the field is kept, and a value inside the field reads back from it |
| Bits.ShlBits | Libraries/STM32F30x_StdPeriph_Driver/src/stm32f30x_tim.c:1093 | a truncated left shift moves each bit up by k and drops those at or above the width |
| Bits.SetIfElsewhere | Libraries/STM32F37x_StdPeriph_Driver/src/stm32f37x_can.c:219-258 | setting or clearing one MCR flag leaves every disjoint flag as it was |
| Bits.SetIfIdempotent | Libraries/STM32F30x_StdPeriph_Driver/src/stm32f30x_tim.c:427-511 | calling a single-bit setter twice with the same state is the same as calling it once |
| Bits.ReplaceIdempotent | Libraries/STM32F30x_StdPeriph_Driver/src/stm32f30x_tim.c:545-556 | replacing a field twice with the same value is the same as once |
| MiscLib.DigitChar | Utilities/STM32_EVAL/STM3210B_EVAL/misc_lib.c:36-40 | a digit below 10 is `'0'+d`, digits 10..15 are `'a'+d-10`, and no digit is NUL |
| MiscLib.DigitRoundTrip | Utilities/STM32_EVAL/STM3210B_EVAL/misc_lib.c:36-40 | reading a digit character back gives the digit |
| MiscLib.DigitsOf | Utilities/STM32_EVAL/STM3210B_EVAL/misc_lib.c:12-15 | the digits of n are empty exactly when n is 0, hold no NUL and have no leading zero |
| MiscLib.Numeral | Utilities/STM32_EVAL/STM3210B_EVAL/misc_lib.c:9-18 | the numeral has at least one digit, no NUL, and starts with `'0'` exactly when the value is 0 |
| MiscLib.DigitsRoundTrip | Utilities/STM32_EVAL/STM3210B_EVAL/misc_lib.c:12-18 | reading the most-significant-first digits back in the same base gives n |
| MiscLib.NumeralRoundTrip | Utilities/STM32_EVAL/STM3210B_EVAL/misc_lib.c:9-18 | reading `DECToASCII`'s (or the hex digits') output back gives `dat`, 0 included |
| MiscLib.ParseSnoc | Utilities/STM32_EVAL/STM3210B_EVAL/misc_lib.c:17-18 | appending a digit multiplies the value read so far by the base and adds the digit |
| MiscLib.DigitsOfStep | Utilities/STM32_EVAL/STM3210B_EVAL/misc_lib.c:13-14 | the digits of n are the digits of n/base followed by the digit of n%base |
| MiscLib.DigitsLengthBound | Utilities/STM32_EVAL/STM3210B_EVAL/misc_lib.c:5-15 | a value below base^k has at most k digits |
| MiscLib.DigitsLengthLower | Utilities/STM32_EVAL/STM3210B_EVAL/misc_lib.c:12-15 | a value at least base^(k-1) has at least k digits |
| MiscLib.DecimalNumeralLength | Utilities/STM32_EVAL/STM3210B_EVAL/misc_lib.c:5-19 | a `uint32_t` has 1 to 10 decimal digits, so the 12-byte temporary buffer with its sentinel never overflows |
| MiscLib.HexNumeralLength | Utilities/STM32_EVAL/STM3210B_EVAL/misc_lib.c:25-45 | a `uint32_t` has 1 to 8 hexadecimal digits |
| MiscLib.EmitDigits | Utilities/STM32_EVAL/STM3210B_EVAL/misc_lib.c:12-18 | the sentinel-stack loop writes the digits most significant first and ends just after them; no other byte changes |
| MiscLib.DecToAscii | Utilities/STM32_EVAL/STM3210B_EVAL/misc_lib.c:3-21 | writes the decimal numeral (`"0"` for 0) then a NUL, returns the position of the NUL, and changes no other byte |
| MiscLib.HexText | Utilities/STM32_EVAL/STM3210B_EVAL/misc_lib.c:29-45 | the hex text starts with `0x`; every character after it is `0`-`9` or `a`-`f`; the first digit is `0` exactly when the value is 0; for a `uint32_t` it is at most 10 characters long; and reading the digits back in base 16 gives the value |
| MiscLib.HexNumeralFacts | Utilities/STM32_EVAL/STM3210B_EVAL/misc_lib.c:29-45 | the hexadecimal numeral consists of hexadecimal digits, reads back as the value, and has at most 8 digits for a `uint32_t` |
| MiscLib.NumeralDigits | Utilities/STM32_EVAL/STM3210B_EVAL/misc_lib.c:9-18 | every character of a numeral is a digit of its base |
| MiscLib.DigitsAreDigits | Utilities/STM32_EVAL/STM3210B_EVAL/misc_lib.c:12-15 | every character the digit loop produces is a digit of the base |
| MiscLib.IsHexText | Utilities/STM32_EVAL/STM3210B_EVAL/misc_lib.c:29-45 | a text made of `0x` and the hexadecimal numeral of the value is `HexText` of that value |
| MiscLib.HexWritten | Utilities/STM32_EVAL/STM3210B_EVAL/misc_lib.c:28-46 | the bytes written before the NUL (`0x`, a `0` for zero, then the digits) are `HexText` of the value |
| MiscLib.HexToAscii | Utilities/STM32_EVAL/STM3210B_EVAL/misc_lib.c:23-48 | writes `"0x"`, the lowercase digits (`"0x0"` for 0) and a NUL, returns the position of the NUL, and changes no other byte |
| MiscLib.Memcpy | Utilities/STM32_EVAL/STM3210B_EVAL/misc_lib.c:50-59 | for a positive count the first count destination bytes become the source bytes; every other byte, and all of them for a count of 0 or less, keep their values |
| MiscLib.MemSet | Utilities/STM32_EVAL/STM3210B_EVAL/misc_lib.c:61-67 | for a positive count the first count bytes become `c`; all other bytes keep their values |
| MiscLib.CStrLen | Utilities/STM32_EVAL/STM3210B_EVAL/misc_lib.c:82-88 | the length of a C string is the index of its first NUL: that byte is NUL and none before it is |
| MiscLib.CStr | Utilities/STM32_EVAL/STM3210B_EVAL/misc_lib.c:85 | the text of a C string holds no NUL |
| MiscLib.CStrLenUnique | Utilities/STM32_EVAL/STM3210B_EVAL/misc_lib.c:85-86 | any n with a NUL at n and none before it is the string length |
| MiscLib.StrLen | Utilities/STM32_EVAL/STM3210B_EVAL/misc_lib.c:82-88 | returns the number of bytes before the first NUL |
| MiscLib.BoundedLenIsMin | Utilities/STM32_EVAL/STM3210B_EVAL/misc_lib.c:93-97 | a length bounded by the precision is the smaller of the string length and the precision |
| MiscLib.StrNLen | Utilities/STM32_EVAL/STM3210B_EVAL/misc_lib.c:90-99 | with precision -1 it is `StrLen`; with precision 0 or more it is the string length capped at the precision; below -1 it returns 0 |
| MiscLib.FirstDifference | Utilities/STM32_EVAL/STM3210B_EVAL/misc_lib.c:107-114 | 0 exactly when the two ranges agree, otherwise the difference of the bytes at the first index where they differ |
| MiscLib.MismatchFreeStep | Utilities/STM32_EVAL/STM3210B_EVAL/misc_lib.c:108-112 | equal first bytes leave the first difference to the rest of the ranges |
| MiscLib.MemCmp | Utilities/STM32_EVAL/STM3210B_EVAL/misc_lib.c:101-115 | returns 0 when `len <= 0`, otherwise the first difference of the two `len`-byte ranges |
| MiscLib.StrCat | Utilities/STM32_EVAL/STM3210B_EVAL/misc_lib.c:69-80 | a NULL pointer gives NULL and writes nothing; otherwise the destination becomes `Appended` and the result points at the new terminating NUL, not at the start |
| MiscLib.Appended | Utilities/STM32_EVAL/STM3210B_EVAL/misc_lib.c:73-78 | the buffer after concatenation has the same size as before |
| MiscLib.AppendedFromParts | Utilities/STM32_EVAL/STM3210B_EVAL/misc_lib.c:73-78 | a buffer that keeps the old string, holds the source after it, then a NUL and the untouched tail, is the appended buffer |
| MiscLib.AppendedShape | Utilities/STM32_EVAL/STM3210B_EVAL/misc_lib.c:73-78 | the appended buffer is the prefix, the old string, the source string, a NUL and the old tail |
| MiscLib.AppendedIsConcatenation | Utilities/STM32_EVAL/STM3210B_EVAL/misc_lib.c:69-80 | after `StrCat` the destination string is the old string followed by the source string, NUL-terminated, and the bytes before it and after its NUL are unchanged |
| Can.BitTiming | Libraries/STM32F37x_StdPeriph_Driver/src/stm32f37x_can.c:261-270 | when every field fits its slot, BTR holds the mode in bits 31:30, SJW in 29:24, BS2 in 23:20, BS1 in 19:16 and the prescaler minus one in 15:0 |
| Can.WaitReads | Libraries/STM32F37x_StdPeriph_Driver/src/stm32f37x_can.c:209-212 | an acknowledge wait makes between 1 and `INAK_TIMEOUT + 1` reads of MSR |
| Can.WaitReadsStops | Libraries/STM32F37x_StdPeriph_Driver/src/stm32f37x_can.c:209-281 | the wait stops at the first read that shows the wanted INAK value, or after the timeout bound, and no read before that showed it |
| Can.WaitReadsExact | Libraries/STM32F37x_StdPeriph_Driver/src/stm32f37x_can.c:209-281 | when INAK first shows the wanted value at read m, the wait makes exactly m+1 reads |
| Can.InitOutcome | Libraries/STM32F37x_StdPeriph_Driver/src/stm32f37x_can.c:184-293 | `CAN_Init` makes at least 2 and at most `2*INAK_TIMEOUT + 4` reads of MSR; without an acknowledge after the first wait it fails with BTR untouched and MCR as after the init request; Success implies the acknowledge, BTR holding the bit-timing word and INRQ clear; once acknowledged, BTR holds the bit-timing word, the last read is the second check, and the result is Success exactly when that check finds INAK clear |
| Can.RequestInit | Libraries/STM32F37x_StdPeriph_Driver/src/stm32f37x_can.c:203-206 | the init request sets INRQ, clears SLEEP (unless the same bit is INRQ) and keeps every other MCR bit |
| Can.WithOptions | Libraries/STM32F37x_StdPeriph_Driver/src/stm32f37x_can.c:219-258 | the option writes change no MCR bit outside the six option flags, and TXFP, the last one written, is set iff its field is ENABLE |
| Can.InitFailsWithoutAck | Libraries/STM32F37x_StdPeriph_Driver/src/stm32f37x_can.c:203-216 | without an acknowledge after the first wait it returns Failed with INRQ set and SLEEP clear, no option bit changed, and BTR not written |
| Can.InitNeverAcknowledged | Libraries/STM32F37x_StdPeriph_Driver/src/stm32f37x_can.c:209-216 | if INAK never sets, `CAN_Init` fails after exactly `INAK_TIMEOUT + 2` reads and leaves BTR alone |
| Can.InitConfigures | Libraries/STM32F37x_StdPeriph_Driver/src/stm32f37x_can.c:215-273 | on acknowledge each of TTCM, ABOM, AWUM, NART, RFLM and TXFP is set iff its field is ENABLE; SLEEP and INRQ end clear; every other MCR bit is kept; BTR is the packed bit-timing word |
| Can.OptionsWritten | Libraries/STM32F37x_StdPeriph_Driver/src/stm32f37x_can.c:219-258 | each option bit is set iff its field is ENABLE |
| Can.OptionsKeepRest | Libraries/STM32F37x_StdPeriph_Driver/src/stm32f37x_can.c:219-258 | the option writes keep INRQ, SLEEP and every bit outside the flags |
| Can.LayoutDisjoint | Libraries/STM32F37x_StdPeriph_Driver/src/stm32f37x_can.c:203-273 | the eight MCR masks the driver uses are pairwise disjoint |
| Can.InitNeverLeaves | Libraries/STM32F37x_StdPeriph_Driver/src/stm32f37x_can.c:272-286 | if INAK stays set through the whole second wait, the controller never left initialisation: `CAN_Init` fails after the second wait's `INAK_TIMEOUT + 1` reads and its check, with BTR already holding the bit-timing word |
| Can.SecondWaitTimesOut | Libraries/STM32F37x_StdPeriph_Driver/src/stm32f37x_can.c:275-283 | a second wait that sees INAK set on every read runs to its bound, and the check after it finds INAK still set |
| Can.InitSucceedsOnTimelyAck | Libraries/STM32F37x_StdPeriph_Driver/src/stm32f37x_can.c:209-288 | when INAK sets within the bound and clears within the bound after INRQ is cleared, the result is Success |
| Can.InitIdempotent | Libraries/STM32F37x_StdPeriph_Driver/src/stm32f37x_can.c:184-293 | a second acknowledged `CAN_Init` with the same settings leaves MCR and BTR as the first left them |
| Can.CanController.ReadInak | Libraries/STM32F37x_StdPeriph_Driver/src/stm32f37x_can.c:209-212 | one MSR read returns the oracle's next INAK value and counts the read |
| Can.CanController.AwaitInak | Libraries/STM32F37x_StdPeriph_Driver/src/stm32f37x_can.c:209-212 | the bounded polling loop makes exactly the reads `WaitReads` gives |
| Can.CanController.Init | Libraries/STM32F37x_StdPeriph_Driver/src/stm32f37x_can.c:184-293 | the status, MCR, BTR and number of MSR reads are those of `InitOutcome` |
| Can.CanController.WriteOptions | Libraries/STM32F37x_StdPeriph_Driver/src/stm32f37x_can.c:219-258 | the six read-modify-writes of MCR give `WithOptions` |
| Can.BankBit | Libraries/STM32F37x_StdPeriph_Driver/src/stm32f37x_can.c:316-317 | `1 << FilterNumber` is the bank's own bit |
| Can.Pack | Libraries/STM32F37x_StdPeriph_Driver/src/stm32f37x_can.c:332-346 | a packed word has the first half-word in its upper 16 bits and the second in its lower 16 bits |
| Can.ScaleBits | Libraries/STM32F37x_StdPeriph_Driver/src/stm32f37x_can.c:326-351 | 16-bit scale clears the bank's FS1R bit, 32-bit scale sets it, any other scale leaves FS1R alone, and no other bank's bit changes |
| Can.BankWords | Libraries/STM32F37x_StdPeriph_Driver/src/stm32f37x_can.c:332-365 | 16-bit scale packs MaskIdLow:IdLow into FR1 and MaskIdHigh:IdHigh into FR2; 32-bit scale packs IdHigh:IdLow and MaskIdHigh:MaskIdLow |
| Can.BankUpdate | Libraries/STM32F37x_StdPeriph_Driver/src/stm32f37x_can.c:332-365 | for a known scale the selected bank's word becomes the first or second packed word of `BankWords`; no other bank's word changes, and nothing is written for another scale |
| Can.ReconfigureLeavesNoResidue | Libraries/STM32F37x_StdPeriph_Driver/src/stm32f37x_can.c:326-366 | configuring a bank twice leaves exactly what the second configuration writes |
| Can.CanController.FilterInit | Libraries/STM32F37x_StdPeriph_Driver/src/stm32f37x_can.c:302-372 | FINIT is set, only the bank's FA1R bit is cleared, FS1R and the bank words follow the scale, and IdMask mode clears the bank's FM1R bit |
| Tim.DefaultTimeBase | Libraries/STM32F30x_StdPeriph_Driver/src/stm32f30x_tim.c:298-306 | the default structure has period 0xFFFFFFFF, prescaler 0, clock division DIV1, counter mode Up and repetition counter 0 |
| Tim.TimeBaseCr1Fields | Libraries/STM32F30x_StdPeriph_Driver/src/stm32f30x_tim.c:258-273 | DIR and CMS take the counter mode only on TIM1/2/3/4/8, CKD takes the clock division on every timer but TIM6/7, and every other CR1 bit is kept |
| Tim.TimeBaseCr1 | Libraries/STM32F30x_StdPeriph_Driver/src/stm32f30x_tim.c:258-273 | a basic timer (TIM6/7) gets CR1 back as read; every other timer gets the clock division set; a counter-mode timer also gets the counter mode set when it does not overlap CKD |
| Tim.DefaultTimeBaseCountsUp | Libraries/STM32F30x_StdPeriph_Driver/src/stm32f30x_tim.c:258-273 | initialising with the default structure makes a counter-mode timer count up with clock division 1 |
| Tim.UpdateRequestCr1 | Libraries/STM32F30x_StdPeriph_Driver/src/stm32f30x_tim.c:453-466 | URS ends set iff the update source is not Global, and no other CR1 bit changes |
| Tim.OcModeWritten | Libraries/STM32F30x_StdPeriph_Driver/src/stm32f30x_tim.c:660-667 | OCxM reads back the mode shifted by 8 on even channels, CCxS is cleared for channels 1 to 4, and the rest of CCMRx is kept |
| Tim.OcOutputWritten | Libraries/STM32F30x_StdPeriph_Driver/src/stm32f30x_tim.c:652-675 | CCxE and CCxP read back the output state and polarity shifted by 4(x-1), and the rest of CCER is kept |
| Tim.OcComplementaryWritten | Libraries/STM32F30x_StdPeriph_Driver/src/stm32f30x_tim.c:677-696 | on a timer with complementary outputs for the channel, CCxNP and CCxNE take the N polarity and N state and the main-output bits are kept |
| Tim.OcPlainChannel | Libraries/STM32F30x_StdPeriph_Driver/src/stm32f30x_tim.c:677-706 | on other timers CR2 is written back exactly as read and no N bit of CCER changes |
| Tim.OcIdleWritten | Libraries/STM32F30x_StdPeriph_Driver/src/stm32f30x_tim.c:697-704 | OISx (and OISxN on channels 1 to 3) read back the idle states, and the rest of CR2 is kept |
| Tim.OcCcmr | Libraries/STM32F30x_StdPeriph_Driver/src/stm32f30x_tim.c:660-667 | the mode at the channel's offset is set, and OCxM (and CCxS on channels 1 to 4) hold nothing but mode bits |
| Tim.OcCcerMain | Libraries/STM32F30x_StdPeriph_Driver/src/stm32f30x_tim.c:652-675 | the polarity and output state at the channel's offset are set, and CCxE and CCxP hold nothing else |
| Tim.OcCcer | Libraries/STM32F30x_StdPeriph_Driver/src/stm32f30x_tim.c:677-696 | on a complementary channel 1 to 3 the N state is set and CCxNE holds nothing else; elsewhere CCER is just the main-output value |
| Tim.OcCr2 | Libraries/STM32F30x_StdPeriph_Driver/src/stm32f30x_tim.c:677-706 | CR2 is written back as read unless the channel is complementary on this timer; then the idle state lands at the channel's offset, and on channels 4 to 6 OISx holds nothing else |
| Tim.Oc6IdleStateLost | Libraries/STM32F30x_StdPeriph_Driver/src/stm32f30x_tim.c:1087-1093 | the 16-bit cast of the idle state shifted by 18 is always empty, so CR2 only has OIS6 cleared, whereas the 32-bit term keeps every idle bit i below 14 at i + 18 |
| Tim.Oc6IdleAsWritten | Libraries/STM32F30x_StdPeriph_Driver/src/stm32f30x_tim.c:1093 | the channel-6 idle term as written, cast to 16 bits, is empty whatever the idle state |
| Tim.OcInitIdempotent | Libraries/STM32F30x_StdPeriph_Driver/src/stm32f30x_tim.c:642-1106 | repeating an output-compare initialisation with the same structure changes nothing more |
| Tim.Timer.TimeBaseInit | Libraries/STM32F30x_StdPeriph_Driver/src/stm32f30x_tim.c:247-290 | CR1 becomes `TimeBaseCr1`, ARR the period and PSC the prescaler; RCR is written only on TIM1/8/15/16/17; EGR gets the immediate-reload value |
| Tim.Timer.PrescalerConfig | Libraries/STM32F30x_StdPeriph_Driver/src/stm32f30x_tim.c:318-328 | PSC is the prescaler and EGR the reload mode |
| Tim.Timer.CounterModeConfig | Libraries/STM32F30x_StdPeriph_Driver/src/stm32f30x_tim.c:342-360 | the DIR and CMS field of CR1 is replaced by the mode |
| Tim.Timer.SelectOnePulseMode | Libraries/STM32F30x_StdPeriph_Driver/src/stm32f30x_tim.c:522-533 | the OPM field of CR1 is replaced by the mode |
| Tim.Timer.SetClockDivision | Libraries/STM32F30x_StdPeriph_Driver/src/stm32f30x_tim.c:545-556 | the CKD field of CR1 is replaced by the division |
| Tim.Timer.UpdateDisableConfig | Libraries/STM32F30x_StdPeriph_Driver/src/stm32f30x_tim.c:427-440 | UDIS is set when enabling and cleared otherwise |
| Tim.Timer.UpdateRequestConfig | Libraries/STM32F30x_StdPeriph_Driver/src/stm32f30x_tim.c:453-466 | CR1 becomes `UpdateRequestCr1` |
| Tim.Timer.UifRemap | Libraries/STM32F30x_StdPeriph_Driver/src/stm32f30x_tim.c:476-489 | UIFREMAP is set when enabling and cleared otherwise |
| Tim.Timer.ArrPreloadConfig | Libraries/STM32F30x_StdPeriph_Driver/src/stm32f30x_tim.c:498-511 | ARPE is set when enabling and cleared otherwise |
| Tim.Timer.Cmd | Libraries/STM32F30x_StdPeriph_Driver/src/stm32f30x_tim.c:566-579 | CEN is set when enabling and cleared otherwise |
| Tim.Timer.SelectGc5c1 | Libraries/STM32F30x_StdPeriph_Driver/src/stm32f30x_tim.c:1116-1129 | GC5C1 in CCR5 is set when enabling and cleared otherwise |
| Tim.Timer.SelectGc5c2 | Libraries/STM32F30x_StdPeriph_Driver/src/stm32f30x_tim.c:1139-1152 | GC5C2 in CCR5 is set when enabling and cleared otherwise |
| Tim.Timer.Oc1Init | Libraries/STM32F30x_StdPeriph_Driver/src/stm32f30x_tim.c:642-716 | CCMR1, CCER and CR2 take the channel-1 updates and CCR1 the pulse |
| Tim.Timer.Oc2Init | Libraries/STM32F30x_StdPeriph_Driver/src/stm32f30x_tim.c:726-810 | CCMR1, CCER and CR2 take the channel-2 updates and CCR2 the pulse |
| Tim.Timer.Oc3Init | Libraries/STM32F30x_StdPeriph_Driver/src/stm32f30x_tim.c:820-903 | CCMR2, CCER and CR2 take the channel-3 updates and CCR3 the pulse |
| Tim.Timer.Oc4Init | Libraries/STM32F30x_StdPeriph_Driver/src/stm32f30x_tim.c:913-972 | CCMR2, CCER and CR2 take the channel-4 updates and CCR4 the pulse |
| Tim.Timer.Oc5Init | Libraries/STM32F30x_StdPeriph_Driver/src/stm32f30x_tim.c:982-1040 | CCMR3, CCER and CR2 take the channel-5 updates and CCR5 the pulse |
| Tim.Timer.Oc6Init | Libraries/STM32F30x_StdPeriph_Driver/src/stm32f30x_tim.c:1050-1106 | CCMR3, CCER and CR2 take the channel-6 updates, with the idle state kept in 32 bits, and CCR6 the pulse |
| Debug.AsUint32 | Utilities/STM32_EVAL/STM3210B_EVAL/debug.c:115-117 | an `int` passed to the encoders is read as `uint32_t`: negative values wrap by 2^32 |
| Debug.Crlf | Utilities/STM32_EVAL/STM3210B_EVAL/debug.c:102-108 | the text as sent is at least as long as the format text, and every LF in it is preceded by a CR |
| Debug.CrlfRoundTrip | Utilities/STM32_EVAL/STM3210B_EVAL/debug.c:102-108 | dropping each CR that directly precedes an LF gives back the format text, including any CR of its own |
| Debug.Render | Utilities/STM32_EVAL/STM3210B_EVAL/debug.c:92-149 | the bytes a format and its arguments produce; it can be undefined only for a format that contains `%` |
| Debug.Converted | Utilities/STM32_EVAL/STM3210B_EVAL/debug.c:112-141 | `%d` gives the decimal numeral, `%x` the `0x` text, `%c` one byte and `%s` the string up to its NUL; it is undefined exactly for an argument of the wrong kind, an unterminated string or another conversion |
| Debug.RenderStep | Utilities/STM32_EVAL/STM3210B_EVAL/debug.c:102-142 | a plain byte sends itself (CR LF for LF); a conversion sends its argument and uses it; another byte after `%` sends nothing and uses no argument |
| Debug.RenderPlainText | Utilities/STM32_EVAL/STM3210B_EVAL/debug.c:102-109 | a format without `%` is sent as its text with a CR before every LF |
| Debug.RenderSkipsUnknown | Utilities/STM32_EVAL/STM3210B_EVAL/debug.c:110-142 | `%` followed by any other byte, `%` included, sends nothing and uses no argument |
| Debug.RenderIgnoresExtraArgs | Utilities/STM32_EVAL/STM3210B_EVAL/debug.c:92-149 | arguments beyond those the format uses change nothing |
| Debug.NumericTextFits | Utilities/STM32_EVAL/STM3210B_EVAL/debug.c:116-125 | the decimal or `0x` text of any `int` fits `res[16]` with its NUL |
| Debug.HexTextHasNoNul | Utilities/STM32_EVAL/STM3210B_EVAL/misc_lib.c:29-45 | the hexadecimal text holds no NUL, so `stm_puts` sends all of it |
| Debug.DebugPort.Putc | Utilities/STM32_EVAL/STM3210B_EVAL/debug.c:73-80 | sends one byte and returns 0 |
| Debug.DebugPort.Puts | Utilities/STM32_EVAL/STM3210B_EVAL/debug.c:82-90 | sends the string up to its NUL and returns the NUL |
| Debug.DebugPort.Printf | Utilities/STM32_EVAL/STM3210B_EVAL/debug.c:92-149 | sends exactly `Render` of the format and its arguments and returns 0 |
| Debug.DebugPort.PrintfStep | Utilities/STM32_EVAL/STM3210B_EVAL/debug.c:101-143 | one pass of the loop sends what `Render` gives for the byte or conversion at the cursor and moves past it |
| Debug.DebugPort.SendPlain | Utilities/STM32_EVAL/STM3210B_EVAL/debug.c:102-108 | a plain byte is sent, preceded by CR when it is LF |
| Debug.DebugPort.SendConversion | Utilities/STM32_EVAL/STM3210B_EVAL/debug.c:111-141 | the `switch` sends `Converted` of the conversion and its argument |
| Debug.DebugPort.SendDecimal | Utilities/STM32_EVAL/STM3210B_EVAL/debug.c:113-120 | `%d` sends the decimal numeral of the argument read as `uint32_t` |
| Debug.DebugPort.SendHex | Utilities/STM32_EVAL/STM3210B_EVAL/debug.c:121-128 | `%x` sends `0x` and the hexadecimal numeral of the argument read as `uint32_t` |
| Debug.PrintfRelease | Utilities/STM32_EVAL/STM3210B_EVAL/debug.c:151-155 | the release build sends nothing and returns 0 |
| Debug.Brr | Utilities/STM32_EVAL/STM3210B_EVAL/debug.c:39-41 | BRR is a 16-bit value, and for any 32-bit clock it is the clock divided by 115200, rounded down: BRR*115200 <= pclk < (BRR+1)*115200 |
| Debug.BrrInteger | Utilities/STM32_EVAL/STM3210B_EVAL/debug.c:39 | the integer part fits 16 bits and, for a 32-bit clock, needs no truncation: it is the clock divided by 16*115200 |
| Debug.BrrFraction | Utilities/STM32_EVAL/STM3210B_EVAL/debug.c:40 | the fraction fits 16 bits and, for a 32-bit clock, is the low four bits of the clock divided by 115200 |
| Debug.BrrJoin | Utilities/STM32_EVAL/STM3210B_EVAL/debug.c:39-41 | `(br_interger<<4) \| br_fractionaldivider`, in 16 bits, is the clock divided by 115200 |
| Debug.JoinQuotient | Utilities/STM32_EVAL/STM3210B_EVAL/debug.c:41 | a 16-bit quotient split into its upper part and low four bits is rebuilt by `<<4` and `\|` |
| Debug.QuotientFits | Utilities/STM32_EVAL/STM3210B_EVAL/debug.c:39-40 | the quotient of a 32-bit clock by the baud rate fits 16 bits and is rounded down |
| Debug.DivDiv | Utilities/STM32_EVAL/STM3210B_EVAL/debug.c:39-40 | dividing by 16*115200 is dividing by 115200 and then by 16 |
| Debug.BitOrZero | Utilities/STM32_EVAL/STM3210B_EVAL/debug.c:41 | OR with 0 is the identity |
| Debug.BitOrEven | Utilities/STM32_EVAL/STM3210B_EVAL/debug.c:41 | OR works bit by bit from the lowest bit |
| Debug.OrEvenStep | Utilities/STM32_EVAL/STM3210B_EVAL/debug.c:41 | if `m \| (f/2)` is their sum, so is `(2*m) \| f` |
| Debug.OrLowNibble | Utilities/STM32_EVAL/STM3210B_EVAL/debug.c:41 | `(i << 4) \| f` with f below 16 is `16*i + f` |

## Left out

- I/O and hardware timing are not modelled: the TXE busy-wait in `stm_putc`, `__disable_irq`/`__enable_irq` around `stm_printf`, when the silicon flips INAK, and what registers do on their own after a write. Sending a byte is appending it to `sent`, and INAK reads come from the oracle.
- `init_debug_fun` is modelled only for its BRR arithmetic. Its GPIO, NVIC, RCC and USART control-register set-up is hardware configuration, and `RCC_GetClocksFreq` becomes the `pclk` parameter.
- The rest of `debug.c` is not part of this model: `serial_put_binary`, `USART1_IRQHandler` and `system_dump` are I/O or an endless loop.
- `TIM_DeInit` and `CAN_DeInit` are not part of this model. They only call RCC reset routines, which are not part of this model either.
- The vendor header bit values are abstract, as described above. A wrong value in a header would not be caught.
- The list-mode, FIFO-assignment, activation and FINIT-exit steps of `CAN_FilterInit` are not part of this model; for `CAN_FilterMode` the model covers the IdMask case only.
- `assert_param` checks are debug-only. They appear as preconditions only where an index must be in range (the filter bank number, the channel number).
- Debug.DebugPort.Printf: the call is undefined for a lone `%` just before the terminating NUL, a missing argument or an argument of the wrong kind. There the cursor runs past the NUL or `va_arg` reads garbage. `Render` returns None for these, and `Printf` requires a format whose `Render` is defined.
- MiscLib.Memcpy and MiscLib.StrCat require distinct source and destination arrays. Overlapping copies depend on the copy direction and are not modelled.
- MiscLib.StrLen and MiscLib.StrNLen return unbounded integers: a string longer than 2^31-1 bytes, where the `int32_t` counter would overflow, is not modelled.
- MiscLib.StrNLen with a precision below -1 is modelled as the C code behaves (it stops at once and returns 0). The source never documents this case.
- MiscLib.DecToAscii and MiscLib.HexToAscii require the destination to have room for the text and its NUL. The C code writes past the end of a too-small buffer.
- MiscLib.StrCat requires (through `CatFits`) that the destination array has room after its terminator for the source string and a NUL, and that the two arrays are distinct. The C code writes past the end of a too-small destination, and an overlapping copy is not modelled.
- Tim.Timer: CR1 is a 16-bit register image because the driver reads it into a `uint16_t` and masks it with 16-bit casts. The other registers are 32-bit images. Structure fields carry the width of their registers rather than the C field types.
- Tim.Timer.Oc1Init to Tim.Timer.Oc6Init: each method performs the preliminary write that clears CCxE in CCER, as the driver does, but the ensures state only the final CCER value, not the intermediate one.
- Can.CanController.FilterInit: FR1 and FR2 hold only the banks the controller was built with, so the bank number must be below that count. FIFO assignment and activation are not part of this model.

## Findings

| source | as written | input that shows it | evidently intended | confidence | as-written member | corrected member |
|---|---|---|---|---|---|---|
| Libraries/STM32F30x_StdPeriph_Driver/src/stm32f30x_tim.c:1093 | `tmpcr2 \|= (uint16_t)(TIM_OCIdleState << 18)`: the 16-bit cast drops every bit at 16 or above, so nothing is ORed in and OIS6 stays clear | any idle state holding a bit i below 14, so that i + 18 still fits in 32 bits, e.g. the set {0}: the as-written 16-bit term is the empty set, where the corrected 32-bit term is {i + 18}; where that bit falls relative to OIS6 depends on the device header's value for the idle state | the 32-bit cast that `TIM_OC5Init` uses at line 1027, so the idle state lands in OIS6 | not executed | Tim.Oc6IdleStateLost | Tim.Timer.Oc6Init |
