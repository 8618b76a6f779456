/**
 * Which frames write which driver fields, and what a field holds after a run
 * of frames: the payload of the last frame whose handler writes it, or its
 * earlier value when no such frame arrived.
 */
module Fields {
  import opened Wrappers
  import opened Codes
  import opened State
  import opened Inbound

  /** The handlers that store an entry of channel `ch`'s calibration table. */
  function CalibrationCodes(ch: ChannelId): set<Code>
  {
    match ch
    case Cs => {CsGetCalibration, CsVerifyCalibration, CsSetCalibration}
    case Vs => {VsGetCalibration, VsVerifyCalibration, VsSetCalibration}
    case Cm => {CmGetCalibration, CmSetCalibration}
    // the set-range slot carries a copy of the get-calibration handler
    case Vm => {VmSetRange, VmGetCalibration, VmSetCalibration}
    case Vm2 => {Vm2GetCalibration, Vm2SetCalibration}
  }

  /** The two handlers that store the voltmeter terminal. */
  const TerminalCodes: set<Code> := {VmSetTerminal, VmGetTerminal}

  /** The two handlers that store a system-configuration parameter. */
  const ParamCodes: set<Code> := {SystemConfigGet, SystemConfigSet}

  /** Frame `f` runs one of the handlers written for `codes`. */
  predicate RunsOneOf(f: Frame, codes: set<Code>)
  {
    f.code < TableSize && HandlerAt(f.code) in codes
  }

  /** The handlers that store a calibration entry of `ch` are exactly those listed for it. */
  lemma CalibrationWriters(h: Code, ch: ChannelId)
    ensures EffectOf(h) == StoreCalibration(ch) <==> h in CalibrationCodes(ch)
  {
    if EffectOf(h) == StoreCalibration(ch) {
      CalibrationWritersListed(h);
    }
  }

  /** Every handler that stores a calibration entry is listed for the channel it writes. */
  lemma CalibrationWritersListed(h: Code)
    requires EffectOf(h).StoreCalibration?
    ensures h in CalibrationCodes(EffectOf(h).ch)
  {
  }

  /** The sole writers of the source flags, the resistance, the terminal and the parameters. */
  lemma ScalarWriters(h: Code)
    ensures EffectOf(h) == SwitchSourceMode <==> h == SetSourceMode
    ensures EffectOf(h) == StoreResistance <==> h == RmReadAutoscale
    ensures EffectOf(h) == StoreTerminal <==> h in TerminalCodes
    ensures EffectOf(h) == StoreParam <==> h in ParamCodes
  {
    SourceWriters(h);
    ListedWriters(h);
  }

  /** The sole writers of the source flags and the resistance. */
  lemma SourceWriters(h: Code)
    ensures EffectOf(h) == SwitchSourceMode <==> h == SetSourceMode
    ensures EffectOf(h) == StoreResistance <==> h == RmReadAutoscale
  {
  }

  /** The sole writers of the terminal and the parameters. */
  lemma ListedWriters(h: Code)
    ensures EffectOf(h) == StoreTerminal <==> h in TerminalCodes
    ensures EffectOf(h) == StoreParam <==> h in ParamCodes
  {
  }

  /** The sole writers of the baud rate and the streaming fields. */
  lemma LinkWriters(h: Code)
    ensures EffectOf(h) == StoreBaudRate <==> h == ChangeBaud
    ensures EffectOf(h) == StoreRecSize <==> h == RecSize
    ensures EffectOf(h) == ScheduleStreaming <==> h == StartRec
  {
  }

  /** The last frame of `fs` that runs one of the handlers of `codes`. */
  function LastAmong(fs: seq<Frame>, codes: set<Code>): (r: Option<Frame>)
    ensures r.None? <==> forall i :: 0 <= i < |fs| ==> !RunsOneOf(fs[i], codes)
    ensures r.Some? ==> RunsOneOf(r.value, codes) && r.value in fs
  {
    if |fs| == 0 then None
    else if RunsOneOf(fs[|fs| - 1], codes) then Some(fs[|fs| - 1])
    else
      var r := LastAmong(fs[..|fs| - 1], codes);
      assert forall i :: 0 <= i < |fs| - 1 ==> fs[..|fs| - 1][i] == fs[i];
      r
  }

  /** The frame `LastAmong` picks is the last one running a handler of `codes`. */
  lemma {:induction false} LastAmongIsLast(fs: seq<Frame>, codes: set<Code>)
    ensures LastAmong(fs, codes).Some? ==>
      exists i :: 0 <= i < |fs| && fs[i] == LastAmong(fs, codes).value &&
        forall j :: i < j < |fs| ==> !RunsOneOf(fs[j], codes)
  {
    if |fs| > 0 && !RunsOneOf(fs[|fs| - 1], codes) {
      var p := fs[..|fs| - 1];
      LastAmongIsLast(p, codes);
      if LastAmong(p, codes).Some? {
        var i :| 0 <= i < |p| && p[i] == LastAmong(p, codes).value &&
          forall j :: i < j < |p| ==> !RunsOneOf(p[j], codes);
        assert LastAmong(fs, codes) == LastAmong(p, codes);
        forall j | i < j < |fs|
          ensures !RunsOneOf(fs[j], codes)
        {
          if j < |p| {
            assert fs[j] == p[j];
          }
        }
        assert fs[i] == p[i];
      }
    }
  }

  /** A frame of a listed slot among `fs` makes the last such frame exist. */
  lemma LastAmongCovers(fs: seq<Frame>, codes: set<Code>, slot: nat)
    requires slot < TableSize && HandlerAt(slot) in codes
    ensures LastWith(fs, slot).Some? ==> LastAmong(fs, codes).Some?
  {
    if LastWith(fs, slot).Some? {
      var f := LastWith(fs, slot).value;
      assert RunsOneOf(f, codes);
    }
  }

  /** The last frame of `fs` that runs one of the handlers of `codes` and carries index `index`. */
  function LastKeyed(fs: seq<Frame>, codes: set<Code>, index: int): (r: Option<Frame>)
    ensures r.None? <==> forall i :: 0 <= i < |fs| ==> !(RunsOneOf(fs[i], codes) && fs[i].index == index)
    ensures r.Some? ==> RunsOneOf(r.value, codes) && r.value.index == index && r.value in fs
  {
    if |fs| == 0 then None
    else if RunsOneOf(fs[|fs| - 1], codes) && fs[|fs| - 1].index == index then Some(fs[|fs| - 1])
    else
      var r := LastKeyed(fs[..|fs| - 1], codes, index);
      assert forall i :: 0 <= i < |fs| - 1 ==> fs[..|fs| - 1][i] == fs[i];
      r
  }

  /** The frame `LastKeyed` picks is the last one of `codes` carrying `index`. */
  lemma {:induction false} LastKeyedIsLast(fs: seq<Frame>, codes: set<Code>, index: int)
    ensures LastKeyed(fs, codes, index).Some? ==>
      exists i :: 0 <= i < |fs| && fs[i] == LastKeyed(fs, codes, index).value &&
        forall j :: i < j < |fs| ==> !(RunsOneOf(fs[j], codes) && fs[j].index == index)
  {
    if |fs| > 0 && !(RunsOneOf(fs[|fs| - 1], codes) && fs[|fs| - 1].index == index) {
      var p := fs[..|fs| - 1];
      LastKeyedIsLast(p, codes, index);
      if LastKeyed(p, codes, index).Some? {
        var i :| 0 <= i < |p| && p[i] == LastKeyed(p, codes, index).value &&
          forall j :: i < j < |p| ==> !(RunsOneOf(p[j], codes) && p[j].index == index);
        assert LastKeyed(fs, codes, index) == LastKeyed(p, codes, index);
        forall j | i < j < |fs|
          ensures !(RunsOneOf(fs[j], codes) && fs[j].index == index)
        {
          if j < |p| {
            assert fs[j] == p[j];
          }
        }
        assert fs[i] == p[i];
      }
    }
  }

  /** A source-mode reply naming one of the two modes (any other mode is ignored). */
  predicate SwitchesMode(f: Frame)
  {
    f.code == SlotOf(SetSourceMode) && (f.word == ModeCurrent || f.word == ModeVoltage)
  }

  /** The last source-mode reply of `fs` that names a mode. */
  function LastSwitch(fs: seq<Frame>): (r: Option<Frame>)
    ensures r.None? <==> forall i :: 0 <= i < |fs| ==> !SwitchesMode(fs[i])
    ensures r.Some? ==> SwitchesMode(r.value) && r.value in fs
  {
    if |fs| == 0 then None
    else if SwitchesMode(fs[|fs| - 1]) then Some(fs[|fs| - 1])
    else
      var r := LastSwitch(fs[..|fs| - 1]);
      assert forall i :: 0 <= i < |fs| - 1 ==> fs[..|fs| - 1][i] == fs[i];
      r
  }

  /** The frame `LastSwitch` picks is the last source-mode reply naming a mode. */
  lemma {:induction false} LastSwitchIsLast(fs: seq<Frame>)
    ensures LastSwitch(fs).Some? ==>
      exists i :: 0 <= i < |fs| && fs[i] == LastSwitch(fs).value &&
        forall j :: i < j < |fs| ==> !SwitchesMode(fs[j])
  {
    if |fs| > 0 && !SwitchesMode(fs[|fs| - 1]) {
      var p := fs[..|fs| - 1];
      LastSwitchIsLast(p);
      if LastSwitch(p).Some? {
        var i :| 0 <= i < |p| && p[i] == LastSwitch(p).value &&
          forall j :: i < j < |p| ==> !SwitchesMode(p[j]);
        assert LastSwitch(fs) == LastSwitch(p);
        forall j | i < j < |fs|
          ensures !SwitchesMode(fs[j])
        {
          if j < |p| {
            assert fs[j] == p[j];
          }
        }
        assert fs[i] == p[i];
      }
    }
  }

  /* ---------------- one frame ---------------- */

  /** What an effect does to entry `index` of channel `ch`'s calibration table. */
  lemma ApplyCalibrationFacts(e: Effect, d: Driver, f: Frame, ch: ChannelId, index: int)
    ensures Apply(e, d, f).Chan(ch).CalibrationAt(index) ==
      if e == StoreCalibration(ch) && f.index == index then CalPoint(f.raw, f.reading)
      else d.Chan(ch).CalibrationAt(index)
  {
    match e
    case StoreRange(c) =>
    case StoreCalibration(c) =>
    case StoreLevel(c) =>
    case SwitchSourceMode =>
    case StoreTerminal =>
    case _ =>
  }

  /** A frame writes entry `index` of `ch`'s table exactly when it is a calibration reply of `ch` for `index`. */
  lemma DispatchCalibration(d: Driver, f: Frame, ch: ChannelId, index: int)
    ensures Dispatch(d, f).Chan(ch).CalibrationAt(index) ==
      if RunsOneOf(f, CalibrationCodes(ch)) && f.index == index then CalPoint(f.raw, f.reading)
      else d.Chan(ch).CalibrationAt(index)
  {
    if f.code < TableSize {
      var h := HandlerAt(f.code);
      CalibrationWriters(h, ch);
      ApplyCalibrationFacts(EffectOf(h), d, f, ch, index);
      assert Dispatch(d, f) == Handle(h, d, f);
      assert Dispatch(d, f).Chan(ch) == Apply(EffectOf(h), d, f).Chan(ch);
    }
  }

  /** What an effect does to the two source-activity flags. */
  lemma ApplySourceFacts(e: Effect, d: Driver, f: Frame)
    ensures Apply(e, d, f).cs.active ==
      if e == SwitchSourceMode && (f.word == ModeCurrent || f.word == ModeVoltage) then f.word == ModeCurrent
      else d.cs.active
    ensures Apply(e, d, f).vs.active ==
      if e == SwitchSourceMode && (f.word == ModeCurrent || f.word == ModeVoltage) then f.word == ModeVoltage
      else d.vs.active
  {
    match e
    case StoreRange(ch) =>
      assert Apply(e, d, f).Chan(Cs).active == d.Chan(Cs).active;
      assert Apply(e, d, f).Chan(Vs).active == d.Chan(Vs).active;
    case StoreCalibration(ch) =>
      assert Apply(e, d, f).Chan(Cs).active == d.Chan(Cs).active;
      assert Apply(e, d, f).Chan(Vs).active == d.Chan(Vs).active;
    case StoreLevel(ch) =>
      assert Apply(e, d, f).Chan(Cs).active == d.Chan(Cs).active;
      assert Apply(e, d, f).Chan(Vs).active == d.Chan(Vs).active;
    case _ =>
  }

  /** Only a source-mode reply naming a mode changes which source is active. */
  lemma DispatchSources(d: Driver, f: Frame)
    ensures Dispatch(d, f).cs.active == (if SwitchesMode(f) then f.word == ModeCurrent else d.cs.active)
    ensures Dispatch(d, f).vs.active == (if SwitchesMode(f) then f.word == ModeVoltage else d.vs.active)
  {
    if f.code < TableSize {
      var h := HandlerAt(f.code);
      SlotOfHandler(f.code);
      ScalarWriters(h);
      ApplySourceFacts(EffectOf(h), d, f);
      assert Dispatch(d, f) == Handle(h, d, f);
    }
  }

  /** What an effect does to the resistance and the voltmeter terminal. */
  lemma ApplyMeterFacts(e: Effect, d: Driver, f: Frame)
    ensures Apply(e, d, f).resistance == (if e == StoreResistance then f.reading else d.resistance)
    ensures Apply(e, d, f).vm.terminal == (if e == StoreTerminal then f.word else d.vm.terminal)
  {
    match e
    case StoreRange(ch) =>
      assert Apply(e, d, f).Chan(Vm).terminal == d.Chan(Vm).terminal;
    case StoreCalibration(ch) =>
      assert Apply(e, d, f).Chan(Vm).terminal == d.Chan(Vm).terminal;
    case StoreLevel(ch) =>
      assert Apply(e, d, f).Chan(Vm).terminal == d.Chan(Vm).terminal;
    case _ =>
  }

  /** Only the resistance reply writes the resistance; only the two terminal replies write the terminal. */
  lemma DispatchMeters(d: Driver, f: Frame)
    ensures Dispatch(d, f).resistance == (if f.code == SlotOf(RmReadAutoscale) then f.reading else d.resistance)
    ensures Dispatch(d, f).vm.terminal == (if RunsOneOf(f, TerminalCodes) then f.word else d.vm.terminal)
  {
    if f.code < TableSize {
      var h := HandlerAt(f.code);
      SlotOfHandler(f.code);
      ScalarWriters(h);
      ApplyMeterFacts(EffectOf(h), d, f);
      assert Dispatch(d, f) == Handle(h, d, f);
    }
  }

  /** What an effect does to the baud rate and the streaming fields. */
  lemma ApplyLinkFacts(e: Effect, d: Driver, f: Frame)
    ensures Apply(e, d, f).baudRate == (if e == StoreBaudRate then f.word else d.baudRate)
    ensures Apply(e, d, f).recSize == (if e == StoreRecSize then f.count else d.recSize)
    ensures Apply(e, d, f).rec == (e == ScheduleStreaming || d.rec)
    ensures Apply(e, d, f).pollStreamAt == (if e == ScheduleStreaming then f.at else d.pollStreamAt)
  {
    match e
    case StoreRange(ch) =>
    case StoreCalibration(ch) =>
    case StoreLevel(ch) =>
    case _ =>
  }

  /**
   * Only the baud-rate reply writes the baud rate, only the record-size reply
   * the record size; only the start-record reply enables streaming and stamps
   * the next poll, and no frame disables it.
   */
  lemma DispatchLink(d: Driver, f: Frame)
    ensures Dispatch(d, f).baudRate == (if f.code == SlotOf(ChangeBaud) then f.word else d.baudRate)
    ensures Dispatch(d, f).recSize == (if f.code == SlotOf(RecSize) then f.count else d.recSize)
    ensures Dispatch(d, f).rec == (f.code == SlotOf(StartRec) || d.rec)
    ensures Dispatch(d, f).pollStreamAt == (if f.code == SlotOf(StartRec) then f.at else d.pollStreamAt)
  {
    if f.code < TableSize {
      var h := HandlerAt(f.code);
      SlotOfHandler(f.code);
      LinkWriters(h);
      ApplyLinkFacts(EffectOf(h), d, f);
      assert Dispatch(d, f) == Handle(h, d, f);
    }
  }

  /** What an effect does to system-configuration parameter `id`. */
  lemma ApplyParamFacts(e: Effect, d: Driver, f: Frame, id: int)
    ensures Apply(e, d, f).Param(id) == (if e == StoreParam && f.index == id then f.raw else d.Param(id))
  {
    match e
    case StoreRange(ch) =>
      assert Apply(e, d, f).sysconf == d.sysconf;
    case StoreCalibration(ch) =>
      assert Apply(e, d, f).sysconf == d.sysconf;
    case StoreLevel(ch) =>
      assert Apply(e, d, f).sysconf == d.sysconf;
    case _ =>
  }

  /** A frame writes parameter `id` exactly when it is a system-configuration reply for `id`. */
  lemma DispatchParam(d: Driver, f: Frame, id: int)
    ensures Dispatch(d, f).Param(id) == (if RunsOneOf(f, ParamCodes) && f.index == id then f.raw else d.Param(id))
  {
    if f.code < TableSize {
      var h := HandlerAt(f.code);
      SlotOfHandler(f.code);
      ScalarWriters(h);
      ApplyParamFacts(EffectOf(h), d, f, id);
      assert Dispatch(d, f) == Handle(h, d, f);
    }
  }

  /* ---------------- a run of frames ---------------- */

  /** Entry `index` of `ch`'s table after `fs`: what the last calibration reply for it carried, else `otherwise`. */
  function EntryAfter(fs: seq<Frame>, ch: ChannelId, index: int, otherwise: CalPoint): CalPoint
  {
    match LastKeyed(fs, CalibrationCodes(ch), index)
    case Some(f) => CalPoint(f.raw, f.reading)
    case None => otherwise
  }

  /** Parameter `id` after `fs`: what the last system-configuration reply for it carried, else `otherwise`. */
  function ParamAfter(fs: seq<Frame>, id: int, otherwise: int): int
  {
    match LastKeyed(fs, ParamCodes, id)
    case Some(f) => f.raw
    case None => otherwise
  }

  /** The voltmeter terminal after `fs`: what the last terminal reply carried, else `otherwise`. */
  function TerminalAfter(fs: seq<Frame>, otherwise: int): int
  {
    match LastAmong(fs, TerminalCodes)
    case Some(f) => f.word
    case None => otherwise
  }

  /** The record size after `fs`: what the last record-size reply carried, else `otherwise`. */
  function CountAfter(fs: seq<Frame>, otherwise: u16): u16
  {
    match LastWith(fs, SlotOf(RecSize))
    case Some(f) => f.count
    case None => otherwise
  }

  lemma {:induction false} DispatchAllCalibration(d: Driver, fs: seq<Frame>, ch: ChannelId, index: int)
    ensures DispatchAll(d, fs).Chan(ch).CalibrationAt(index) == EntryAfter(fs, ch, index, d.Chan(ch).CalibrationAt(index))
    decreases |fs|
  {
    if |fs| > 0 {
      var p := fs[..|fs| - 1];
      DispatchAllCalibration(d, p, ch, index);
      DispatchCalibration(DispatchAll(d, p), fs[|fs| - 1], ch, index);
    }
  }

  lemma {:induction false} DispatchAllParam(d: Driver, fs: seq<Frame>, id: int)
    ensures DispatchAll(d, fs).Param(id) == ParamAfter(fs, id, d.Param(id))
    decreases |fs|
  {
    if |fs| > 0 {
      var p := fs[..|fs| - 1];
      DispatchAllParam(d, p, id);
      DispatchParam(DispatchAll(d, p), fs[|fs| - 1], id);
    }
  }

  /** After a run, the active source is the one the last mode-switching reply named, if any. */
  lemma {:induction false} DispatchAllSources(d: Driver, fs: seq<Frame>)
    ensures LastSwitch(fs).Some? ==>
      && DispatchAll(d, fs).cs.active == (LastSwitch(fs).value.word == ModeCurrent)
      && DispatchAll(d, fs).vs.active == (LastSwitch(fs).value.word == ModeVoltage)
    ensures LastSwitch(fs).None? ==>
      DispatchAll(d, fs).cs.active == d.cs.active && DispatchAll(d, fs).vs.active == d.vs.active
    decreases |fs|
  {
    if |fs| > 0 {
      var p := fs[..|fs| - 1];
      DispatchAllSources(d, p);
      DispatchSources(DispatchAll(d, p), fs[|fs| - 1]);
    }
  }

  lemma {:induction false} DispatchAllResistance(d: Driver, fs: seq<Frame>)
    ensures DispatchAll(d, fs).resistance == LastReading(fs, SlotOf(RmReadAutoscale), d.resistance)
    decreases |fs|
  {
    if |fs| > 0 {
      var p := fs[..|fs| - 1];
      DispatchAllResistance(d, p);
      DispatchMeters(DispatchAll(d, p), fs[|fs| - 1]);
    }
  }

  lemma {:induction false} DispatchAllTerminal(d: Driver, fs: seq<Frame>)
    ensures DispatchAll(d, fs).vm.terminal == TerminalAfter(fs, d.vm.terminal)
    decreases |fs|
  {
    if |fs| > 0 {
      var p, f := fs[..|fs| - 1], fs[|fs| - 1];
      DispatchAllTerminal(d, p);
      DispatchMeters(DispatchAll(d, p), f);
      assert LastAmong(fs, TerminalCodes) == if RunsOneOf(f, TerminalCodes) then Some(f) else LastAmong(p, TerminalCodes);
    }
  }

  lemma {:induction false} DispatchAllLink(d: Driver, fs: seq<Frame>)
    ensures DispatchAll(d, fs).baudRate == LastWord(fs, SlotOf(ChangeBaud), d.baudRate)
    ensures DispatchAll(d, fs).recSize == CountAfter(fs, d.recSize)
    ensures DispatchAll(d, fs).rec == (d.rec || LastWith(fs, SlotOf(StartRec)).Some?)
    ensures DispatchAll(d, fs).pollStreamAt ==
      (match LastWith(fs, SlotOf(StartRec)) case Some(f) => f.at case None => d.pollStreamAt)
    decreases |fs|
  {
    if |fs| > 0 {
      var p := fs[..|fs| - 1];
      DispatchAllLink(d, p);
      DispatchLink(DispatchAll(d, p), fs[|fs| - 1]);
    }
  }
}
