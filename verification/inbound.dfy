/**
 * Inbound-frame dispatch (`Driver::comm_cb` and the `*CB` handlers).
 *
 * A frame whose code is below the table size runs the handler at that
 * position; the handler copies payload into the driver record and raises one
 * acknowledgement flag. Any other frame is ignored.
 */
module Inbound {
  import opened Wrappers
  import opened Codes
  import opened State

  /** Wire values of the two source modes; only their distinctness matters. */
  const ModeCurrent: int := 0
  const ModeVoltage: int := 1

  /** `setSourceModeCB`: activate the requested source, deactivate the other. */
  function SwitchSource(d: Driver, mode: int): (r: Driver)
    // a known mode leaves exactly one source active, the one it names
    ensures mode == ModeCurrent || mode == ModeVoltage ==>
      (r.vs.active <==> mode == ModeVoltage) && r.cs.active != r.vs.active
    // an unknown mode changes nothing
    ensures mode != ModeCurrent && mode != ModeVoltage ==> r == d
    // only the two activity bits can change
    ensures r.(cs := d.cs, vs := d.vs) == d
    ensures r.cs.(active := d.cs.active) == d.cs && r.vs.(active := d.vs.active) == d.vs
  {
    if mode == ModeCurrent then
      d.(vs := d.vs.(active := false), cs := d.cs.(active := true))
    else if mode == ModeVoltage then
      d.(cs := d.cs.(active := false), vs := d.vs.(active := true))
    else d
  }

  function WithRange(d: Driver, ch: ChannelId, range: int): Driver
  {
    d.WithChan(ch, d.Chan(ch).(range := range))
  }

  function WithLevel(d: Driver, ch: ChannelId, level: int): Driver
  {
    d.WithChan(ch, d.Chan(ch).(level := level))
  }

  /** Store the calibration entry a calibration reply carries. */
  function WithCalibration(d: Driver, ch: ChannelId, f: Frame): Driver
  {
    var c := d.Chan(ch);
    d.WithChan(ch, c.(calibration := c.calibration[f.index := CalPoint(f.raw, f.reading)]))
  }

  /** What a handler does with a frame's payload before raising its flag. */
  datatype Effect =
    | NoPayload                     // acknowledgement only
    | StoreIdentity                 // identity_ := name
    | SwitchSourceMode              // activate one source, deactivate the other
    | StoreRange(ch: ChannelId)
    | StoreCalibration(ch: ChannelId)
    | StoreLevel(ch: ChannelId)     // commanded current/voltage or meter reading
    | StoreResistance
    | StoreParam                    // system-configuration parameter
    | StoreTerminal                 // voltmeter input terminal
    | StoreBaudRate
    | StoreRecSize
    | AppendSamples                 // raw and calibrated queues
    | ScheduleStreaming             // _poll_stream_at := arrival time, _rec := true

  /**
   * The payload effect of the handler written for code `h`. The handler in the
   * `VmSetRange` slot is a copy of the VM get-calibration handler: it reads the
   * frame as a calibration reply and stores a VM calibration entry.
   */
  function EffectOf(h: Code): (e: Effect)
    // no handler stores the voltmeter range
    ensures e.StoreRange? ==> e.ch != Vm
    ensures e == StoreIdentity <==> h == Idn
    ensures e == AppendSamples <==> h == RecData
  {
    match h
    case Idn => StoreIdentity
    case SetSourceMode => SwitchSourceMode
    case CsSetRange => StoreRange(Cs)
    case CsGetCalibration | CsVerifyCalibration | CsSetCalibration => StoreCalibration(Cs)
    case CsSetCurrent => StoreLevel(Cs)
    case VsSetRange => StoreRange(Vs)
    case VsGetCalibration | VsVerifyCalibration | VsSetCalibration => StoreCalibration(Vs)
    case VsSetVoltage => StoreLevel(Vs)
    case CmSetRange => StoreRange(Cm)
    case CmGetCalibration | CmSetCalibration => StoreCalibration(Cm)
    case CmRead => StoreLevel(Cm)
    case VmSetRange | VmGetCalibration | VmSetCalibration => StoreCalibration(Vm)
    case VmRead => StoreLevel(Vm)
    case RmReadAutoscale => StoreResistance
    case SystemConfigGet | SystemConfigSet => StoreParam
    case Vm2SetRange => StoreRange(Vm2)
    case Vm2GetCalibration | Vm2SetCalibration => StoreCalibration(Vm2)
    case Vm2Read => StoreLevel(Vm2)
    case VmSetTerminal | VmGetTerminal => StoreTerminal
    case ChangeBaud => StoreBaudRate
    case RecSize => StoreRecSize
    case RecData => AppendSamples
    case StartRec => ScheduleStreaming
    // NOP, keep-alive, save, load-default and stop-record replies carry no payload
    case _ => NoPayload
  }

  /** Carry out a payload effect on the driver record. */
  function Apply(e: Effect, d: Driver, f: Frame): (r: Driver)
    // a payload never touches the flags or the thread flag
    ensures r.ack == d.ack && r.alive == d.alive
  {
    match e
    case NoPayload => d
    case StoreIdentity => d.(identity := f.identity)
    case SwitchSourceMode => SwitchSource(d, f.word)
    case StoreRange(ch) => WithRange(d, ch, f.word)
    case StoreCalibration(ch) => WithCalibration(d, ch, f)
    case StoreLevel(ch) => WithLevel(d, ch, f.reading)
    case StoreResistance => d.(resistance := f.reading)
    case StoreParam => d.(sysconf := d.sysconf[f.index := f.raw])
    case StoreTerminal => d.(vm := d.vm.(terminal := f.word))
    case StoreBaudRate => d.(baudRate := f.word)
    case StoreRecSize => d.(recSize := f.count)
    case AppendSamples => d.(dataq32 := d.dataq32 + f.samples, dataq := d.dataq + Calibrated(f.samples))
    case ScheduleStreaming => d.(pollStreamAt := f.at, rec := true)
  }

  /**
   * The flag the handler written for `h` raises: its own, except the
   * `VmSetRange` slot, which raises the VM get-calibration flag.
   */
  function Signal(h: Code): Code
  {
    if h == VmSetRange then VmGetCalibration else h
  }

  /** No handler raises the VM set-range flag; every other handler raises its own. */
  lemma SignalOwnFlag(h: Code)
    ensures Signal(h) != VmSetRange
    ensures h != VmSetRange ==> Signal(h) == h
  {
  }

  /** Run the handler written for `h`: carry out its payload effect, then raise its flag. */
  function Handle(h: Code, d: Driver, f: Frame): (r: Driver)
    // exactly one flag goes up and none comes down
    ensures r.ack == d.ack + {Signal(h)}
    ensures r.alive == d.alive
  {
    var d' := Apply(EffectOf(h), d, f);
    d'.(ack := d'.ack + {Signal(h)})
  }

  /** Only the set-range handlers of CS, VS, CM and VM2 store a range. */
  lemma RangeWriters(h: Code, ch: ChannelId)
    ensures EffectOf(h) == StoreRange(ch) <==> ch != Vm && h == SetRangeCode(ch)
  {
  }

  /** Each channel's scalar has one writer: its set-current, set-voltage or read handler. */
  lemma LevelWriters(h: Code, ch: ChannelId)
    ensures EffectOf(h) == StoreLevel(ch) <==> h == LevelCode(ch)
  {
  }

  /** The flags a frame raises when dispatched. */
  function Answers(f: Frame): set<Code>
  {
    if f.code < TableSize then {Signal(HandlerAt(f.code))} else {}
  }

  /** The raw samples a frame appends to the queues. */
  function Streamed(f: Frame): seq<int>
  {
    if f.code == SlotOf(RecData) then f.samples else []
  }

  /** `comm_cb`: route a frame by its code to the handler at that position. */
  function Dispatch(d: Driver, f: Frame): (r: Driver)
    ensures f.code >= TableSize ==> r == d
    ensures r.ack == d.ack + Answers(f)
    ensures r.dataq32 == d.dataq32 + Streamed(f)
    ensures r.dataq == d.dataq + Calibrated(Streamed(f))
    ensures r.alive == d.alive
  {
    if f.code < TableSize then
      HandlerFacts(d, f);
      Handle(HandlerAt(f.code), d, f)
    else
      assert d.dataq32 + [] == d.dataq32 && d.dataq + [] == d.dataq;
      d
  }

  /**
   * The sole-writer fields: only an identity reply writes the identity, no
   * frame writes the VM range, and each other range and each scalar is written
   * only by the frame of its own slot.
   */
  lemma DispatchFields(d: Driver, f: Frame)
    ensures Dispatch(d, f).identity == (if f.code == SlotOf(Idn) then f.identity else d.identity)
    ensures Dispatch(d, f).vm.range == d.vm.range
    ensures forall ch :: ch != Vm ==>
      Dispatch(d, f).Chan(ch).range == (if f.code == SlotOf(SetRangeCode(ch)) then f.word else d.Chan(ch).range)
    ensures forall ch ::
      Dispatch(d, f).Chan(ch).level == (if f.code == SlotOf(LevelCode(ch)) then f.reading else d.Chan(ch).level)
  {
    if f.code < TableSize {
      var r := Handle(HandlerAt(f.code), d, f);
      assert Dispatch(d, f) == r;
      HandlerIdentityFacts(d, f);
      forall ch
        ensures r.Chan(ch).range ==
          (if ch != Vm && f.code == SlotOf(SetRangeCode(ch)) then f.word else d.Chan(ch).range)
        ensures r.Chan(ch).level ==
          (if f.code == SlotOf(LevelCode(ch)) then f.reading else d.Chan(ch).level)
      {
        HandlerChannelFacts(d, f, ch);
      }
      assert r.vm.range == r.Chan(Vm).range;
    }
  }

  /** What an effect changes outside the channels. */
  lemma ApplyFacts(e: Effect, d: Driver, f: Frame)
    ensures Apply(e, d, f).ack == d.ack
    ensures Apply(e, d, f).alive == d.alive
    ensures Apply(e, d, f).identity == (if e == StoreIdentity then f.identity else d.identity)
    ensures Apply(e, d, f).dataq32 == d.dataq32 + (if e == AppendSamples then f.samples else [])
    ensures Apply(e, d, f).dataq == d.dataq + (if e == AppendSamples then Calibrated(f.samples) else [])
  {
    match e
    case AppendSamples =>
    case _ =>
      assert d.dataq32 + [] == d.dataq32;
      assert d.dataq + [] == d.dataq;
  }

  /** What an effect changes in channel `ch`'s range and scalar. */
  lemma ApplyChannelFacts(e: Effect, d: Driver, f: Frame, ch: ChannelId)
    ensures Apply(e, d, f).Chan(ch).range == (if e == StoreRange(ch) then f.word else d.Chan(ch).range)
    ensures Apply(e, d, f).Chan(ch).level == (if e == StoreLevel(ch) then f.reading else d.Chan(ch).level)
  {
    match e
    case StoreRange(c) =>
    case StoreCalibration(c) =>
    case StoreLevel(c) =>
    case SwitchSourceMode =>
    case StoreTerminal =>
    case _ =>
  }

  /** The flags and queues after a frame whose code selects a handler. */
  lemma HandlerFacts(d: Driver, f: Frame)
    requires f.code < TableSize
    ensures var r := Handle(HandlerAt(f.code), d, f);
      && r.ack == d.ack + Answers(f)
      && r.dataq32 == d.dataq32 + Streamed(f)
      && r.dataq == d.dataq + Calibrated(Streamed(f))
      && r.alive == d.alive
  {
    var h := HandlerAt(f.code);
    var e := EffectOf(h);
    SlotOfHandler(f.code);
    assert e == AppendSamples <==> h == RecData;
    ApplyFacts(e, d, f);
  }

  /** Only an identity reply writes the identity. */
  lemma HandlerIdentityFacts(d: Driver, f: Frame)
    requires f.code < TableSize
    ensures Handle(HandlerAt(f.code), d, f).identity == (if f.code == SlotOf(Idn) then f.identity else d.identity)
  {
    var h := HandlerAt(f.code);
    SlotOfHandler(f.code);
    assert EffectOf(h) == StoreIdentity <==> h == Idn;
    ApplyFacts(EffectOf(h), d, f);
  }

  /** Channel `ch`'s range and scalar after a frame whose code selects a handler. */
  lemma HandlerChannelFacts(d: Driver, f: Frame, ch: ChannelId)
    requires f.code < TableSize
    ensures var r := Handle(HandlerAt(f.code), d, f);
      && r.Chan(ch).range == (if ch != Vm && f.code == SlotOf(SetRangeCode(ch)) then f.word else d.Chan(ch).range)
      && r.Chan(ch).level == (if f.code == SlotOf(LevelCode(ch)) then f.reading else d.Chan(ch).level)
  {
    var h := HandlerAt(f.code);
    var e := EffectOf(h);
    SlotOfHandler(f.code);
    ApplyChannelFacts(e, d, f, ch);
    RangeWriters(h, ch);
    LevelWriters(h, ch);
  }

  /** No handler raises the VM set-range flag. */
  lemma NothingSignalsVmSetRange(f: Frame)
    ensures VmSetRange !in Answers(f)
  {
  }

  /**
   * Routing is positional: apart from the VM get-calibration flag, which two
   * slots raise, and the VM set-range flag, which none raises, a frame raises
   * flag `c` exactly when its code is the slot of `c`'s handler.
   */
  lemma AnswersBySlot(f: Frame, c: Code)
    ensures c != VmGetCalibration && c != VmSetRange ==> (c in Answers(f) <==> f.code == SlotOf(c))
    ensures c == VmGetCalibration ==>
      (c in Answers(f) <==> f.code == SlotOf(VmSetRange) || f.code == SlotOf(VmGetCalibration))
    ensures c == VmSetRange ==> c !in Answers(f)
  {
    if f.code < TableSize {
      SlotOfHandler(f.code);
    }
  }

  /** The flags a run of frames raises. */
  function RaisedSet(fs: seq<Frame>): set<Code>
  {
    if |fs| == 0 then {} else RaisedSet(fs[..|fs| - 1]) + Answers(fs[|fs| - 1])
  }

  /** A flag is raised by a run of frames exactly when one of its frames answers it. */
  lemma {:induction false} RaisedSetMembers(fs: seq<Frame>, c: Code)
    ensures c in RaisedSet(fs) <==> exists i :: 0 <= i < |fs| && c in Answers(fs[i])
  {
    if |fs| > 0 {
      var p := fs[..|fs| - 1];
      RaisedSetMembers(p, c);
      assert RaisedSet(fs) == RaisedSet(p) + Answers(fs[|fs| - 1]);
      if c in RaisedSet(p) {
        var i :| 0 <= i < |p| && c in Answers(p[i]);
        assert fs[i] == p[i];
      } else if c !in RaisedSet(fs) {
        forall i | 0 <= i < |fs|
          ensures c !in Answers(fs[i])
        {
          if i < |p| {
            assert fs[i] == p[i];
          }
        }
      }
    }
  }

  /** The raw samples a run of frames appends, in arrival order. */
  function Samples(fs: seq<Frame>): seq<int>
  {
    if |fs| == 0 then [] else Samples(fs[..|fs| - 1]) + Streamed(fs[|fs| - 1])
  }

  /** The last frame of the run carrying wire code `slot`, if any. */
  function LastWith(fs: seq<Frame>, slot: nat): (r: Option<Frame>)
    ensures r.None? <==> forall i :: 0 <= i < |fs| ==> fs[i].code != slot
    ensures r.Some? ==> r.value.code == slot && r.value in fs
  {
    if |fs| == 0 then None
    else if fs[|fs| - 1].code == slot then Some(fs[|fs| - 1])
    else
      var r := LastWith(fs[..|fs| - 1], slot);
      assert forall i :: 0 <= i < |fs| - 1 ==> fs[..|fs| - 1][i] == fs[i];
      r
  }

  lemma {:induction false} RaisedSetAppend(a: seq<Frame>, b: seq<Frame>)
    ensures RaisedSet(a + b) == RaisedSet(a) + RaisedSet(b)
    decreases |b|
  {
    if |b| == 0 {
      assert a + b == a;
    } else {
      var b' := b[..|b| - 1];
      assert (a + b)[..|a + b| - 1] == a + b';
      assert (a + b)[|a + b| - 1] == b[|b| - 1];
      RaisedSetAppend(a, b');
    }
  }

  lemma {:induction false} SamplesAppend(a: seq<Frame>, b: seq<Frame>)
    ensures Samples(a + b) == Samples(a) + Samples(b)
    decreases |b|
  {
    if |b| == 0 {
      assert a + b == a;
      assert Samples(a) + [] == Samples(a);
    } else {
      var b' := b[..|b| - 1];
      assert (a + b)[..|a + b| - 1] == a + b';
      assert (a + b)[|a + b| - 1] == b[|b| - 1];
      SamplesAppend(a, b');
      AppendAssoc(Samples(a), Samples(b'), Streamed(b[|b| - 1]));
    }
  }

  /** The frame `LastWith` picks is the last of its slot: no frame after it carries that code. */
  lemma {:induction false} LastWithIsLast(fs: seq<Frame>, slot: nat)
    ensures LastWith(fs, slot).Some? ==>
      exists i :: 0 <= i < |fs| && fs[i] == LastWith(fs, slot).value &&
        forall j :: i < j < |fs| ==> fs[j].code != slot
  {
    if |fs| > 0 && fs[|fs| - 1].code != slot {
      var p := fs[..|fs| - 1];
      LastWithIsLast(p, slot);
      if LastWith(p, slot).Some? {
        var i :| 0 <= i < |p| && p[i] == LastWith(p, slot).value &&
          forall j :: i < j < |p| ==> p[j].code != slot;
        assert LastWith(fs, slot) == LastWith(p, slot);
        forall j | i < j < |fs|
          ensures fs[j].code != slot
        {
          if j < |p| {
            assert fs[j] == p[j];
          }
        }
        assert fs[i] == p[i];
      }
    }
  }

  lemma {:induction false} LastWithAppend(a: seq<Frame>, b: seq<Frame>, slot: nat)
    ensures LastWith(a + b, slot) == if LastWith(b, slot).Some? then LastWith(b, slot) else LastWith(a, slot)
    decreases |b|
  {
    if |b| == 0 {
      assert a + b == a;
    } else {
      var b' := b[..|b| - 1];
      assert (a + b)[..|a + b| - 1] == a + b';
      assert (a + b)[|a + b| - 1] == b[|b| - 1];
      LastWithAppend(a, b', slot);
    }
  }

  /** The word of the last frame of code `slot` in `fs` (a range or terminal), else `otherwise`. */
  function LastWord(fs: seq<Frame>, slot: nat, otherwise: int): int
  {
    match LastWith(fs, slot)
    case Some(f) => f.word
    case None => otherwise
  }

  /** The reading of the last frame of code `slot` in `fs`, else `otherwise`. */
  function LastReading(fs: seq<Frame>, slot: nat, otherwise: int): int
  {
    match LastWith(fs, slot)
    case Some(f) => f.reading
    case None => otherwise
  }

  /** The name carried by the last identity reply in `fs`, else `otherwise`. */
  function LastIdentity(fs: seq<Frame>, otherwise: string): string
  {
    match LastWith(fs, SlotOf(Idn))
    case Some(f) => f.identity
    case None => otherwise
  }

  /**
   * Deliver a run of frames in order (one `Comm::check` call): the flags raised
   * accumulate.
   */
  function DispatchAll(d: Driver, fs: seq<Frame>): (r: Driver)
    ensures r.ack == d.ack + RaisedSet(fs)
    ensures r.alive == d.alive
    decreases |fs|
  {
    if |fs| == 0 then d
    else Dispatch(DispatchAll(d, fs[..|fs| - 1]), fs[|fs| - 1])
  }

  /** Dispatching a concatenation dispatches its parts one after the other. */
  lemma {:induction false} DispatchAllAppend(d: Driver, a: seq<Frame>, b: seq<Frame>)
    ensures DispatchAll(d, a + b) == DispatchAll(DispatchAll(d, a), b)
    decreases |b|
  {
    if |b| == 0 {
      assert a + b == a;
    } else {
      var b' := b[..|b| - 1];
      assert (a + b)[..|a + b| - 1] == a + b';
      assert (a + b)[|a + b| - 1] == b[|b| - 1];
      DispatchAllAppend(d, a, b');
    }
  }

  /** The raw samples of a run of frames are appended to the raw queue, oldest first. */
  lemma {:induction false} DispatchAllRaw(d: Driver, fs: seq<Frame>)
    ensures DispatchAll(d, fs).dataq32 == d.dataq32 + Samples(fs)
    decreases |fs|
  {
    if |fs| > 0 {
      var p, f := fs[..|fs| - 1], fs[|fs| - 1];
      DispatchAllRaw(d, p);
      AppendAssoc(d.dataq32, Samples(p), Streamed(f));
    }
  }

  /** Their calibrated images are appended to the calibrated queue, in the same order. */
  lemma {:induction false} DispatchAllCalibrated(d: Driver, fs: seq<Frame>)
    ensures DispatchAll(d, fs).dataq == d.dataq + Calibrated(Samples(fs))
    decreases |fs|
  {
    if |fs| > 0 {
      var p, f := fs[..|fs| - 1], fs[|fs| - 1];
      DispatchAllCalibrated(d, p);
      CalibratedAppend(Samples(p), Streamed(f));
      AppendAssoc(d.dataq, Calibrated(Samples(p)), Calibrated(Streamed(f)));
    }
  }

  /**
   * Every sole-writer field ends up holding what the last frame for its slot
   * carried: the identity string, the CS/VS/CM/VM2 ranges and each channel's
   * scalar. The VM range has no writer at all.
   */
  lemma {:induction false} DispatchAllFields(d: Driver, fs: seq<Frame>)
    ensures DispatchAll(d, fs).identity == LastIdentity(fs, d.identity)
    ensures DispatchAll(d, fs).vm.range == d.vm.range
    ensures forall ch :: ch != Vm ==>
      DispatchAll(d, fs).Chan(ch).range == LastWord(fs, SlotOf(SetRangeCode(ch)), d.Chan(ch).range)
    ensures forall ch ::
      DispatchAll(d, fs).Chan(ch).level == LastReading(fs, SlotOf(LevelCode(ch)), d.Chan(ch).level)
    decreases |fs|
  {
    if |fs| > 0 {
      DispatchAllFields(d, fs[..|fs| - 1]);
      DispatchFields(DispatchAll(d, fs[..|fs| - 1]), fs[|fs| - 1]);
    }
  }

  /**
   * A flag other than the two VM ones is raised by a run of frames only if a
   * frame of its own slot was among them.
   */
  lemma RaisedOnlyBySlot(fs: seq<Frame>, c: Code)
    requires c != VmGetCalibration && c != VmSetRange
    ensures c in RaisedSet(fs) <==> LastWith(fs, SlotOf(c)).Some?
  {
    RaisedSetMembers(fs, c);
    if c in RaisedSet(fs) {
      var i :| 0 <= i < |fs| && c in Answers(fs[i]);
      AnswersBySlot(fs[i], c);
    }
    if LastWith(fs, SlotOf(c)).Some? {
      var i :| 0 <= i < |fs| && fs[i].code == SlotOf(c);
      AnswersBySlot(fs[i], c);
    }
  }

  /** No run of frames raises the VM set-range flag. */
  lemma VmSetRangeNeverRaised(fs: seq<Frame>)
    ensures VmSetRange !in RaisedSet(fs)
  {
    RaisedSetMembers(fs, VmSetRange);
    forall i | 0 <= i < |fs|
      ensures VmSetRange !in Answers(fs[i])
    {
      NothingSignalsVmSetRange(fs[i]);
    }
  }

  /** The two sources are never both active. */
  predicate ExclusiveSources(d: Driver)
  {
    !(d.cs.active && d.vs.active)
  }

  /** No payload effect activates both sources. */
  lemma ApplyKeepsExclusive(e: Effect, d: Driver, f: Frame)
    requires ExclusiveSources(d)
    ensures ExclusiveSources(Apply(e, d, f))
  {
    match e
    case StoreRange(ch) =>
      assert Apply(e, d, f).Chan(Cs).active == d.Chan(Cs).active;
      assert Apply(e, d, f).Chan(Vs).active == d.Chan(Vs).active;
    case StoreCalibration(ch) =>
      assert Apply(e, d, f).Chan(Cs).active == d.Chan(Cs).active;
      assert Apply(e, d, f).Chan(Vs).active == d.Chan(Vs).active;
    case StoreLevel(ch) =>
      assert Apply(e, d, f).Chan(Cs).active == d.Chan(Cs).active;
      assert Apply(e, d, f).Chan(Vs).active == d.Chan(Vs).active;
    case _ =>
  }

  /** Every frame keeps the sources exclusive: a source-mode reply activates one and deactivates the other. */
  lemma DispatchKeepsExclusive(d: Driver, f: Frame)
    requires ExclusiveSources(d)
    ensures ExclusiveSources(Dispatch(d, f))
  {
    if f.code < TableSize {
      ApplyKeepsExclusive(EffectOf(HandlerAt(f.code)), d, f);
    }
  }

  lemma {:induction false} DispatchAllKeepsExclusive(d: Driver, fs: seq<Frame>)
    requires ExclusiveSources(d)
    ensures ExclusiveSources(DispatchAll(d, fs))
    decreases |fs|
  {
    if |fs| > 0 {
      DispatchAllKeepsExclusive(d, fs[..|fs| - 1]);
      DispatchKeepsExclusive(DispatchAll(d, fs[..|fs| - 1]), fs[|fs| - 1]);
    }
  }
}
