/** Sub-audible tone classification of the RT-890 receive path.

    The classifier reads the BK4819 interrupt/status register (0x0C) and,
    in a strict first-match-wins order, decides whether the wanted tone is
    present, whether a tail tone (the 55 Hz squelch-closing tone) is being
    received, or whether no tone is present.
 */
module ToneDetect {

  /** A 16-bit value read from a register of the RF chip. */
  type Word = bv16

  /** Bits of the status register that the classifier looks at. */
  const IRQ_PENDING: Word := 0x0001
  const CTC1_FOUND: Word := 0x0400
  const CTC2_FOUND: Word := 0x0800
  const DCS_N_FOUND: Word := 0x4000
  const DCS_I_FOUND: Word := 0x8000

  predicate Has(w: Word, flag: Word) {
    w & flag != 0
  }

  datatype ToneStatus = NoTone | GotTone | TailTone

  /** Squelch code configured for the current VFO. */
  datatype CodeType = Off | Ctcss | DcsNormal | DcsInverted

  datatype RadioMode = Quiet | Rx | Tx | Incoming

  /** The firmware state the classifier consults besides the register.
      `noaaActive` is the NOAA weather-band flag in a build with NOAA
      support; in a build without it the flag is never consulted. */
  datatype ToneContext = ToneContext(
    noaaActive: bool,
    radioMode: RadioMode,
    monitorMode: bool,
    codeType: CodeType,
    muteEnabled: bool)

  /** The status register as read first, and as read again after the
      pending interrupt has been serviced (only used in that case). */
  datatype StatusReads = StatusReads(first: Word, afterCheck: Word)

  /** True when the classifier services a pending chip interrupt and
      reads the status register a second time. */
  predicate ReceiverCheckCalled(ctx: ToneContext, first: Word) {
    !ctx.noaaActive && Has(first, IRQ_PENDING) && ctx.radioMode == Rx
  }

  /** The word every non-NOAA rule is decided on: the second read after a
      receiver check, the first read otherwise. */
  function DecisionWord(ctx: ToneContext, reg: StatusReads): (w: Word)
    ensures w == reg.first || (ReceiverCheckCalled(ctx, reg.first) && w == reg.afterCheck)
  {
    if ReceiverCheckCalled(ctx, reg.first) then reg.afterCheck else reg.first
  }

  /** The priority-ordered classification rules. */
  function GetToneStatus(ctx: ToneContext, reg: StatusReads): (r: ToneStatus)
    ensures r == TailTone ==> !ctx.noaaActive && !ctx.monitorMode
    ensures r == NoTone ==> ctx.noaaActive || ctx.codeType != Off || ctx.muteEnabled
  {
    if ctx.noaaActive then
      if Has(reg.first, CTC1_FOUND) then GotTone else NoTone
    else
      var w := DecisionWord(ctx, reg);
      if ctx.monitorMode then GotTone
      else if Has(w, CTC2_FOUND) then TailTone
      else if Has(w, CTC1_FOUND) && ctx.codeType == Ctcss then GotTone
      else if Has(w, CTC1_FOUND) && (ctx.codeType == DcsNormal || ctx.codeType == DcsInverted || ctx.muteEnabled) then TailTone
      else if Has(w, DCS_N_FOUND) && (ctx.codeType == DcsInverted || ctx.muteEnabled) then GotTone
      else if Has(w, DCS_I_FOUND) && ctx.codeType == DcsNormal then GotTone
      else if ctx.codeType == Off && !ctx.muteEnabled then GotTone
      else NoTone
  }

  /** In NOAA mode only the CTC1 bit of the first read matters: no tail
      tone, no monitor override, no code type, no mute. */
  lemma NoaaUsesCtc1Only(ctx: ToneContext, reg: StatusReads)
    requires ctx.noaaActive
    ensures GetToneStatus(ctx, reg) == if Has(reg.first, CTC1_FOUND) then GotTone else NoTone
  {
  }

  /** The second read influences the result exactly through the decision
      word: when no receiver check happens it is ignored, and when one
      happens the first read matters only through its interrupt bit. */
  lemma SecondReadOnlyAfterCheck(ctx: ToneContext, reg1: StatusReads, reg2: StatusReads)
    requires ReceiverCheckCalled(ctx, reg1.first) == ReceiverCheckCalled(ctx, reg2.first)
    requires DecisionWord(ctx, reg1) == DecisionWord(ctx, reg2)
    ensures GetToneStatus(ctx, reg1) == GetToneStatus(ctx, reg2)
  {
  }

  /** Monitor mode opens the squelch whatever the register says. */
  lemma MonitorForcesGotTone(ctx: ToneContext, reg: StatusReads)
    requires !ctx.noaaActive && ctx.monitorMode
    ensures GetToneStatus(ctx, reg) == GotTone
  {
  }

  /** The CTC2 (55 Hz) tail tone dominates every other bit, code type and
      mute setting. */
  lemma TailToneDominates(ctx: ToneContext, reg: StatusReads)
    requires !ctx.noaaActive && !ctx.monitorMode
    requires Has(DecisionWord(ctx, reg), CTC2_FOUND)
    ensures GetToneStatus(ctx, reg) == TailTone
  {
  }

  /** With CTC1 seen and no tail tone: CTCSS has its tone; DCS, or mute
      on any code type but CTCSS, reads it as a tail tone. */
  lemma Ctc1ByCodeType(ctx: ToneContext, reg: StatusReads)
    requires !ctx.noaaActive && !ctx.monitorMode
    requires Has(DecisionWord(ctx, reg), CTC1_FOUND) && !Has(DecisionWord(ctx, reg), CTC2_FOUND)
    ensures ctx.codeType == Ctcss ==> GetToneStatus(ctx, reg) == GotTone
    ensures ctx.codeType != Ctcss && (ctx.codeType != Off || ctx.muteEnabled) ==> GetToneStatus(ctx, reg) == TailTone
    ensures ctx.codeType == Off && !ctx.muteEnabled ==> GetToneStatus(ctx, reg) == GotTone
  {
  }

  /** A second definition of the same rules, grouped by code type, for use
      outside NOAA and monitor mode. The tail tone still comes first, and
      within each code type CTC1 still takes precedence over the DCS bits. */
  function ExpectedStatus(codeType: CodeType, muteEnabled: bool, w: Word): (r: ToneStatus)
    ensures r == TailTone ==> Has(w, CTC2_FOUND) || Has(w, CTC1_FOUND)
  {
    if Has(w, CTC2_FOUND) then TailTone
    else match codeType
      case Off =>
        if !muteEnabled then GotTone
        else if Has(w, CTC1_FOUND) then TailTone
        else if Has(w, DCS_N_FOUND) then GotTone
        else NoTone
      case Ctcss =>
        if Has(w, CTC1_FOUND) || (muteEnabled && Has(w, DCS_N_FOUND)) then GotTone else NoTone
      case DcsNormal =>
        if Has(w, CTC1_FOUND) then TailTone
        else if Has(w, DCS_I_FOUND) || (muteEnabled && Has(w, DCS_N_FOUND)) then GotTone
        else NoTone
      case DcsInverted =>
        if Has(w, CTC1_FOUND) then TailTone
        else if Has(w, DCS_N_FOUND) then GotTone
        else NoTone
  }

  /** The priority chain agrees with the per-code-type table. */
  lemma ToneStatusMatchesTable(ctx: ToneContext, reg: StatusReads)
    requires !ctx.noaaActive && !ctx.monitorMode
    ensures GetToneStatus(ctx, reg) == ExpectedStatus(ctx.codeType, ctx.muteEnabled, DecisionWord(ctx, reg))
  {
  }

  /** GotTone outside NOAA and monitor mode, stated as one condition. */
  lemma GotToneIff(ctx: ToneContext, reg: StatusReads)
    requires !ctx.noaaActive && !ctx.monitorMode
    ensures var w := DecisionWord(ctx, reg);
      GetToneStatus(ctx, reg) == GotTone <==>
        !Has(w, CTC2_FOUND) &&
        ((ctx.codeType == Off && !ctx.muteEnabled) ||
         (Has(w, CTC1_FOUND) && ctx.codeType == Ctcss) ||
         (!Has(w, CTC1_FOUND) &&
          ((Has(w, DCS_N_FOUND) && (ctx.codeType == DcsInverted || ctx.muteEnabled)) ||
           (Has(w, DCS_I_FOUND) && ctx.codeType == DcsNormal))))
  {
  }

  /** TailTone, stated as one condition. */
  lemma TailToneIff(ctx: ToneContext, reg: StatusReads)
    ensures var w := DecisionWord(ctx, reg);
      GetToneStatus(ctx, reg) == TailTone <==>
        !ctx.noaaActive && !ctx.monitorMode &&
        (Has(w, CTC2_FOUND) ||
         (Has(w, CTC1_FOUND) && ctx.codeType != Ctcss && (ctx.codeType != Off || ctx.muteEnabled)))
  {
  }
}
