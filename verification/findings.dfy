/**
 * Three defects of the driver, each modelled as written and as evidently
 * intended.
 *
 * 1. The handler in the voltmeter set-range slot of the dispatch table is a
 *    copy of the voltmeter get-calibration handler: it reads a set-range
 *    reply as a calibration entry, stores it, and raises the get-calibration
 *    flag. A voltmeter set-range exchange therefore never succeeds, the
 *    range is never stored, and a calibration entry is overwritten.
 * 2. `poll_stream` leaves `size` uninitialised when the record-size
 *    exchange does not return true, and then requests that many samples.
 * 3. Nothing lowers the NOP flag: once a NOP reply has arrived, every later
 *    exchange throws `NoOperation` at its first poll that is in time.
 */
module Findings {
  import opened Codes
  import opened State
  import opened Inbound
  import opened Wait
  import opened Ops
  import opened Streaming

  /* ---------------- 1. the voltmeter set-range slot ---------------- */

  /** A voltmeter set-range reply confirming `range`, as the instrument sends it. */
  function VmRangeReply(range: int, at: real): (f: Frame)
    ensures f.code == SlotOf(VmSetRange) && f.word == range
  {
    Frame(SlotOf(VmSetRange), range, 0, 11, 12, "", 0, [], at)
  }

  /** A voltmeter set-range reply arriving in time, then silence past a one-second budget. */
  const MisreadTrace: Trace := [Step([VmRangeReply(5, 0.5)], 0.5), Step([], 2.0)]

  /** What the reply does when dispatched: the handler stores a calibration entry and raises the wrong flag. */
  lemma MisreadFrame(d: Driver)
    ensures var r := Dispatch(d, VmRangeReply(5, 0.5));
      && r.ack == d.ack + {VmGetCalibration}
      && r.vm.range == d.vm.range
      && r.vm.CalibrationAt(0) == CalPoint(11, 12)
  {
    var f := VmRangeReply(5, 0.5);
    var r := Handle(VmSetRange, d, f);
    assert Dispatch(d, f) == r;
    assert r.vm == d.vm.(calibration := d.vm.calibration[0 := CalPoint(11, 12)]);
  }

  /** What the reply does to the driver once the set-range flag is lowered. */
  lemma MisreadRun(d: Driver)
    ensures Run(d, MisreadTrace, 1) == Dispatch(d, VmRangeReply(5, 0.5))
    ensures Run(d, MisreadTrace, 2) == Run(d, MisreadTrace, 1)
  {
    var f := VmRangeReply(5, 0.5);
    var t := MisreadTrace;
    assert t[0].frames == [f] && t[1].frames == [];
    assert DispatchAll(d, [f]) == Dispatch(d, f) by {
      assert [f][..0] == [];
    }
    assert Run(d, t, 1) == DispatchAll(d, [f]);
    assert Run(d, t, 2) == DispatchAll(Run(d, t, 1), []);
  }

  /** The wait for the set-range flag sees the reply, keeps polling, and times out. */
  lemma MisreadWait(d: Driver)
    requires VmSetRange !in d.ack && Nop !in d.ack
    ensures WaitFor(d, VmSetRange, 1.0, MisreadTrace) == Waited(Run(d, MisreadTrace, 1), TimedOut, 0.0, 2)
  {
    MisreadRun(d);
    MisreadFrame(d);
    var ps := Polls(d, MisreadTrace);
    assert ps[0] == PollAt(d, MisreadTrace, 0) && ps[1] == PollAt(d, MisreadTrace, 1);
    assert FlagLoop(ps, VmSetRange, 1.0, 0) == Exit(TimedOut, 0.0, 2);
  }

  /** The VM set-range exchange over that trace: two polls, then a timeout. */
  lemma MisreadExchange(d: Driver)
    requires Nop !in d.ack
    ensures Command(d, VmSetRange, 1.0, MisreadTrace) ==
      Waited(Run(Reset(d, VmSetRange), MisreadTrace, 1), TimedOut, 0.0, 2)
  {
    MisreadWait(Reset(d, VmSetRange));
  }

  /**
   * As written: a voltmeter set-range reply that arrives in time still lets
   * the exchange time out. The caller's slot keeps its old value, the
   * voltmeter range is unchanged, calibration entry 0 is overwritten with
   * the reply's bytes and the get-calibration flag is up.
   */
  lemma VmSetRangeReplyMisread(d: Driver)
    requires Nop !in d.ack
    ensures var r := SetRange(d, Vm, 3, 1.0, MisreadTrace);
      && r.w.status.TimedOut?
      && r.out == 3
      && r.w.driver.vm.range == d.vm.range
      && r.w.driver.vm.CalibrationAt(0) == CalPoint(11, 12)
      && VmGetCalibration in r.w.driver.ack
  {
    var t := MisreadTrace;
    var w := Command(d, VmSetRange, 1.0, t);
    MisreadCommand(d);
    VmSetRangeKeepsSlot(d, 3, 1.0, t);
    assert SetRange(d, Vm, 3, 1.0, t) == Reply(w, 3);
  }

  /** Whatever the voltmeter set-range exchange receives, the caller's slot keeps the requested range. */
  lemma VmSetRangeKeepsSlot(d: Driver, range: int, budget: real, t: Trace)
    requires ValidTrace(t, budget)
    ensures SetRange(d, Vm, range, budget, t) == Reply(Command(d, VmSetRange, budget, t), range)
  {
  }

  /** The set-range exchange itself, before the caller picks its output. */
  lemma MisreadCommand(d: Driver)
    requires Nop !in d.ack
    ensures var w := Command(d, VmSetRange, 1.0, MisreadTrace);
      && w.status.TimedOut?
      && w.driver.vm.range == d.vm.range
      && w.driver.vm.CalibrationAt(0) == CalPoint(11, 12)
      && VmGetCalibration in w.driver.ack
  {
    var e := Reset(d, VmSetRange);
    MisreadRun(e);
    MisreadFrame(e);
    MisreadExchange(d);
    assert e.vm == d.vm;
  }

  /** The effect the handler written for `h` was meant to have. */
  function CorrectedEffectOf(h: Code): (e: Effect)
    // every channel's range, the voltmeter's included, has exactly its own set-range writer
    ensures forall ch :: e == StoreRange(ch) <==> h == SetRangeCode(ch)
  {
    if h == VmSetRange then StoreRange(Vm) else EffectOf(h)
  }

  /** `comm_cb` with the voltmeter set-range slot repaired: every handler raises its own flag. */
  function CorrectedDispatch(d: Driver, f: Frame): (r: Driver)
    ensures f.code >= TableSize ==> r == d
    ensures f.code < TableSize ==> r.ack == d.ack + {HandlerAt(f.code)}
    ensures r.alive == d.alive
  {
    if f.code < TableSize then
      var h := HandlerAt(f.code);
      var d' := Apply(CorrectedEffectOf(h), d, f);
      ApplyFacts(CorrectedEffectOf(h), d, f);
      d'.(ack := d'.ack + {h})
    else
      d
  }

  /** A flag newly up after a frame was raised by a frame of that flag's own slot. */
  lemma CorrectedRaisesOwnFlag(d: Driver, f: Frame, c: Code)
    requires c in CorrectedDispatch(d, f).ack && c !in d.ack
    ensures f.code == SlotOf(c)
  {
    SlotOfHandler(f.code);
  }

  /**
   * The repaired slot stores the voltmeter range and raises the set-range
   * flag, leaving the calibration table alone.
   */
  lemma CorrectedVmSetRange(d: Driver, f: Frame)
    requires f.code == SlotOf(VmSetRange)
    ensures CorrectedDispatch(d, f).vm.range == f.word
    ensures CorrectedDispatch(d, f).vm.calibration == d.vm.calibration
    ensures VmSetRange in CorrectedDispatch(d, f).ack
  {
  }

  /** Every other slot behaves exactly as before. */
  lemma CorrectedAgreesElsewhere(d: Driver, f: Frame)
    requires f.code != SlotOf(VmSetRange)
    ensures CorrectedDispatch(d, f) == Dispatch(d, f)
  {
    if f.code < TableSize {
      var h := HandlerAt(f.code);
      SlotOfHandler(f.code);
      assert h != VmSetRange;
      assert CorrectedEffectOf(h) == EffectOf(h) && Signal(h) == h;
      assert Dispatch(d, f) == Handle(h, d, f);
    }
  }

  /* ---------------- 3. the NOP flag nothing lowers ---------------- */

  /** An exchange that also lowers a NOP flag left over from an earlier exchange. */
  function CorrectedCommand(d: Driver, c: Code, budget: real, t: Trace): Waited
    requires ValidTrace(t, budget)
  {
    Command(Reset(d, Nop), c, budget, t)
  }

  /**
   * With the stale flag lowered, an exchange throws `NoOperation` only when a
   * NOP reply arrived during it.
   */
  lemma CorrectedCommandThrowsOnlyOnNop(d: Driver, c: Code, budget: real, t: Trace)
    requires ValidTrace(t, budget)
    ensures var w := CorrectedCommand(d, c, budget, t);
      w.status.NoOperation? ==> LastWith(Received(t, w), SlotOf(Nop)).Some?
  {
    var e := Reset(d, Nop);
    var w := Command(e, c, budget, t);
    CommandAck(e, c, budget, t);
    if w.status.NoOperation? {
      assert Nop in RaisedSet(Received(t, w));
      RaisedOnlyBySlot(Received(t, w), Nop);
    }
  }

  /* ---------------- 2. the uninitialised record size ---------------- */

  /** A trace in which nothing arrives within `poll_stream`'s record-size budget. */
  const Silence: Trace := [Step([], 2.0)]

  /** A wait over the silent trace times out at its only poll, leaving the driver as it was. */
  lemma SilenceTimesOut(d: Driver, c: Code)
    requires c !in d.ack
    ensures WaitFor(d, c, SizeBudget, Silence) == Waited(d, TimedOut, 0.0, 1)
  {
    assert Run(d, Silence, 1) == DispatchAll(d, []) by {
      assert Silence[0].frames == [];
    }
    assert Polls(d, Silence)[0] == PollAt(d, Silence, 0);
    assert FlagLoop(Polls(d, Silence), c, SizeBudget, 0) == Exit(TimedOut, 0.0, 1);
  }

  /**
   * As written: when the record-size exchange times out, `poll_stream`
   * requests as many samples as the uninitialised `size` happens to hold
   * (here 7), though the instrument announced none.
   */
  method UnsetSizeRequested(d: Driver, dataTraces: seq<Trace>)
    returns (r: Driver, requests: seq<u16>, thrown: bool)
    requires |dataTraces| > 0
    requires forall i :: 0 <= i < |dataTraces| ==> ValidTrace(dataTraces[i], DataBudget)
    ensures QueryRecSize(d, 7, SizeBudget, Silence).w.status.TimedOut?
    ensures requests == [7]
  {
    SilenceTimesOut(Reset(d, RecSize), RecSize);
    assert QueryRecSize(d, 7, SizeBudget, Silence).w == WaitFor(Reset(d, RecSize), RecSize, SizeBudget, Silence);
    r, requests, thrown := PollStream(d, 7, Silence, dataTraces);
  }

  /**
   * `poll_stream` with `size` initialised to zero: a request is sent only
   * after a record-size reply, and for exactly the count it announced.
   */
  method PollStreamInitialised(d: Driver, sizeTrace: Trace, dataTraces: seq<Trace>)
    returns (r: Driver, requests: seq<u16>, thrown: bool)
    requires ValidTrace(sizeTrace, SizeBudget)
    requires |dataTraces| > 0
    requires forall i :: 0 <= i < |dataTraces| ==> ValidTrace(dataTraces[i], DataBudget)
    ensures |requests| <= 1
    ensures var q := QueryRecSize(d, 0, SizeBudget, sizeTrace);
      && (!q.w.status.Satisfied? ==> requests == [])
      && (requests != [] ==>
            && q.w.status.Satisfied?
            && requests == [LastWith(Received(sizeTrace, q.w), SlotOf(RecSize)).value.count])
  {
    r, requests, thrown := PollStream(d, 0, sizeTrace, dataTraces);
  }
}
