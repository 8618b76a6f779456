/**
 * Callback codes of the SMU protocol and the driver's positional dispatch table.
 *
 * A callback code names one kind of inbound frame and, at the same time, the
 * acknowledgement flag that its handler is meant to raise. The numeric values
 * of the codes are defined by the frame codec; the driver only relies on the
 * position of each handler in its table, so the codes are modelled
 * symbolically and a frame's wire code is its position in the table.
 */
module Codes {

  /** The acknowledgement flags, declared in the order of the dispatch table. */
  datatype Code =
    | Nop | Idn | KeepAlive | SetSourceMode
    | CsSetRange | CsGetCalibration | CsVerifyCalibration | CsSetCalibration | CsSaveCalibration | CsSetCurrent
    | VsSetRange | VsGetCalibration | VsVerifyCalibration | VsSetCalibration | VsSaveCalibration | VsSetVoltage
    | CmSetRange | CmGetCalibration | CmSetCalibration | CmSaveCalibration | CmRead
    | VmSetRange | VmGetCalibration | VmSetCalibration | VmSaveCalibration | VmRead
    | CsLoadDefaultCalibration | VsLoadDefaultCalibration | CmLoadDefaultCalibration | VmLoadDefaultCalibration
    | RmReadAutoscale
    | SystemConfigGet | SystemConfigSet | SystemConfigSave | SystemConfigLoadDefault
    | Vm2SetRange | Vm2GetCalibration | Vm2SetCalibration | Vm2SaveCalibration | Vm2Read | Vm2LoadDefaultCalibration
    | VmSetTerminal | VmGetTerminal
    | ChangeBaud | RecSize | RecData | StartRec | StopRec

  /**
   * The dispatch table: slot `i` holds the handler written for code
   * `HandlerAt(i)` (the handler `X_CB` registered for flag `X`).
   */
  function HandlerAt(i: nat): Code
    requires i < TableSize
  {
    match i
    case 0 => Nop
    case 1 => Idn
    case 2 => KeepAlive
    case 3 => SetSourceMode
    case 4 => CsSetRange
    case 5 => CsGetCalibration
    case 6 => CsVerifyCalibration
    case 7 => CsSetCalibration
    case 8 => CsSaveCalibration
    case 9 => CsSetCurrent
    case 10 => VsSetRange
    case 11 => VsGetCalibration
    case 12 => VsVerifyCalibration
    case 13 => VsSetCalibration
    case 14 => VsSaveCalibration
    case 15 => VsSetVoltage
    case 16 => CmSetRange
    case 17 => CmGetCalibration
    case 18 => CmSetCalibration
    case 19 => CmSaveCalibration
    case 20 => CmRead
    case 21 => VmSetRange
    case 22 => VmGetCalibration
    case 23 => VmSetCalibration
    case 24 => VmSaveCalibration
    case 25 => VmRead
    case 26 => CsLoadDefaultCalibration
    case 27 => VsLoadDefaultCalibration
    case 28 => CmLoadDefaultCalibration
    case 29 => VmLoadDefaultCalibration
    case 30 => RmReadAutoscale
    case 31 => SystemConfigGet
    case 32 => SystemConfigSet
    case 33 => SystemConfigSave
    case 34 => SystemConfigLoadDefault
    case 35 => Vm2SetRange
    case 36 => Vm2GetCalibration
    case 37 => Vm2SetCalibration
    case 38 => Vm2SaveCalibration
    case 39 => Vm2Read
    case 40 => Vm2LoadDefaultCalibration
    case 41 => VmSetTerminal
    case 42 => VmGetTerminal
    case 43 => ChangeBaud
    case 44 => RecSize
    case 45 => RecData
    case 46 => StartRec
    case _ => StopRec
  }

  /** Number of handlers in the table; frames with a larger code are ignored. */
  const TableSize: nat := 48

  /** Position of the handler written for `c`. */
  function SlotOf(c: Code): (i: nat)
    ensures i < TableSize && HandlerAt(i) == c
  {
    match c
    case Nop => 0
    case Idn => 1
    case KeepAlive => 2
    case SetSourceMode => 3
    case CsSetRange => 4
    case CsGetCalibration => 5
    case CsVerifyCalibration => 6
    case CsSetCalibration => 7
    case CsSaveCalibration => 8
    case CsSetCurrent => 9
    case VsSetRange => 10
    case VsGetCalibration => 11
    case VsVerifyCalibration => 12
    case VsSetCalibration => 13
    case VsSaveCalibration => 14
    case VsSetVoltage => 15
    case CmSetRange => 16
    case CmGetCalibration => 17
    case CmSetCalibration => 18
    case CmSaveCalibration => 19
    case CmRead => 20
    case VmSetRange => 21
    case VmGetCalibration => 22
    case VmSetCalibration => 23
    case VmSaveCalibration => 24
    case VmRead => 25
    case CsLoadDefaultCalibration => 26
    case VsLoadDefaultCalibration => 27
    case CmLoadDefaultCalibration => 28
    case VmLoadDefaultCalibration => 29
    case RmReadAutoscale => 30
    case SystemConfigGet => 31
    case SystemConfigSet => 32
    case SystemConfigSave => 33
    case SystemConfigLoadDefault => 34
    case Vm2SetRange => 35
    case Vm2GetCalibration => 36
    case Vm2SetCalibration => 37
    case Vm2SaveCalibration => 38
    case Vm2Read => 39
    case Vm2LoadDefaultCalibration => 40
    case VmSetTerminal => 41
    case VmGetTerminal => 42
    case ChangeBaud => 43
    case RecSize => 44
    case RecData => 45
    case StartRec => 46
    case StopRec => 47
  }

  /** Slot `i` holds the handler of the code whose slot is `i`. */
  lemma SlotOfHandler(i: nat)
    requires i < TableSize
    ensures SlotOf(HandlerAt(i)) == i
  {
    if i < 24 {
      SlotOfLowerHandler(i);
    } else {
      SlotOfUpperHandler(i);
    }
  }

  /** `SlotOfHandler` for the first half of the table. */
  lemma SlotOfLowerHandler(i: nat)
    requires i < 24
    ensures SlotOf(HandlerAt(i)) == i
  {
  }

  /** `SlotOfHandler` for the second half of the table. */
  lemma SlotOfUpperHandler(i: nat)
    requires 24 <= i < TableSize
    ensures SlotOf(HandlerAt(i)) == i
  {
  }

  /** The table holds every code exactly once: slot positions and codes are in bijection. */
  lemma TableIsBijective()
    ensures forall i :: 0 <= i < TableSize ==> SlotOf(HandlerAt(i)) == i
    ensures forall c :: HandlerAt(SlotOf(c)) == c
  {
    forall i | 0 <= i < TableSize
      ensures SlotOf(HandlerAt(i)) == i
    {
      SlotOfHandler(i);
    }
  }

  /** The physical functions of the instrument that keep a channel state. */
  datatype ChannelId = Cs | Vs | Cm | Vm | Vm2 {
    /** Current source and voltage source; only they have a verify-calibration exchange. */
    predicate IsSource() { Cs? || Vs? }
  }

  /** Flag of the `<channel>_setRange` exchange. */
  function SetRangeCode(ch: ChannelId): Code
  {
    match ch
    case Cs => CsSetRange
    case Vs => VsSetRange
    case Cm => CmSetRange
    case Vm => VmSetRange
    case Vm2 => Vm2SetRange
  }

  /** Flag of the `<channel>_getCalibration` exchange. */
  function GetCalibrationCode(ch: ChannelId): Code
  {
    match ch
    case Cs => CsGetCalibration
    case Vs => VsGetCalibration
    case Cm => CmGetCalibration
    case Vm => VmGetCalibration
    case Vm2 => Vm2GetCalibration
  }

  /** Flag of the `<channel>_verifyCalibration` exchange (source channels only). */
  function VerifyCalibrationCode(ch: ChannelId): Code
    requires ch.IsSource()
  {
    if ch.Cs? then CsVerifyCalibration else VsVerifyCalibration
  }

  /** Flag of the `<channel>_setCalibration` exchange. */
  function SetCalibrationCode(ch: ChannelId): Code
  {
    match ch
    case Cs => CsSetCalibration
    case Vs => VsSetCalibration
    case Cm => CmSetCalibration
    case Vm => VmSetCalibration
    case Vm2 => Vm2SetCalibration
  }

  /** Flag of the `<channel>_saveCalibration` exchange. */
  function SaveCalibrationCode(ch: ChannelId): Code
  {
    match ch
    case Cs => CsSaveCalibration
    case Vs => VsSaveCalibration
    case Cm => CmSaveCalibration
    case Vm => VmSaveCalibration
    case Vm2 => Vm2SaveCalibration
  }

  /** Flag of the `<channel>_loadDefaultCalibration` exchange. */
  function LoadDefaultCalibrationCode(ch: ChannelId): Code
  {
    match ch
    case Cs => CsLoadDefaultCalibration
    case Vs => VsLoadDefaultCalibration
    case Cm => CmLoadDefaultCalibration
    case Vm => VmLoadDefaultCalibration
    case Vm2 => Vm2LoadDefaultCalibration
  }

  /**
   * Flag of the exchange that confirms the channel's scalar: `setCurrent` and
   * `setVoltage` for the sources, `read` for the meters.
   */
  function LevelCode(ch: ChannelId): Code
  {
    match ch
    case Cs => CsSetCurrent
    case Vs => VsSetVoltage
    case Cm => CmRead
    case Vm => VmRead
    case Vm2 => Vm2Read
  }

  /**
   * The per-channel flags are pairwise distinct from the two VM flags that
   * the dispatch table mishandles, except where they are those flags.
   */
  lemma ChannelCodesApart(ch: ChannelId)
    ensures SetRangeCode(ch) != VmGetCalibration
    ensures SetRangeCode(ch) == VmSetRange <==> ch == Vm
    ensures GetCalibrationCode(ch) != VmSetRange
    ensures GetCalibrationCode(ch) == VmGetCalibration <==> ch == Vm
    ensures ch.IsSource() ==> VerifyCalibrationCode(ch) != VmSetRange && VerifyCalibrationCode(ch) != VmGetCalibration
    ensures SetCalibrationCode(ch) != VmSetRange && SetCalibrationCode(ch) != VmGetCalibration
    ensures SaveCalibrationCode(ch) != VmSetRange && SaveCalibrationCode(ch) != VmGetCalibration
    ensures LoadDefaultCalibrationCode(ch) != VmSetRange && LoadDefaultCalibrationCode(ch) != VmGetCalibration
    ensures LevelCode(ch) != VmSetRange && LevelCode(ch) != VmGetCalibration
  {
  }
}
