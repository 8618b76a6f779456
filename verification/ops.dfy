/**
 * The request/response operations of `smu::Driver`. Each one lowers its own
 * acknowledgement flag, transmits a request (the transport is not modelled),
 * waits for the flag and, only when the wait returns true, copies the field
 * the reply confirmed into the caller's output slot.
 */
module Ops {
  import opened Wrappers
  import opened Codes
  import opened State
  import opened Inbound
  import opened Fields
  import opened Wait

  /** `ackBits_.reset(c)`: lower flag `c` and nothing else. */
  function Reset(d: Driver, c: Code): (r: Driver)
    ensures c !in r.ack
    ensures forall o :: o != c ==> (o in r.ack <==> o in d.ack)
    ensures r.(ack := d.ack) == d
  {
    d.(ack := d.ack - {c})
  }

  /** The frames a finished wait delivered. */
  function Received(t: Trace, w: Waited): seq<Frame>
    requires w.steps <= |t|
  {
    Delivered(t, w.steps)
  }

  /**
   * The exchange every operation runs: reset flag `c`, transmit, then
   * `waitForResponse(c, timeout)`.
   */
  function Command(d: Driver, c: Code, budget: real, t: Trace): (w: Waited)
    requires ValidTrace(t, budget)
    ensures 0 < w.steps <= |t|
    ensures w.status.NoOperation? ==> w.budget == budget && Nop in w.driver.ack
    // only a poll in time throws
    ensures w.status.NoOperation? ==> t[w.steps - 1].elapsed <= budget
    ensures !w.status.NoOperation? ==> w.budget == Remaining(budget, t[w.steps - 1].elapsed)
    ensures 0.0 <= w.budget <= Max0(budget)
  {
    WaitFor(Reset(d, c), c, budget, t)
  }

  /** An exchange dispatches, in order, every frame its polls delivered. */
  lemma CommandRun(d: Driver, c: Code, budget: real, t: Trace)
    requires ValidTrace(t, budget)
    ensures var w := Command(d, c, budget, t);
      w.driver == DispatchAll(Reset(d, c), Received(t, w))
  {
    RunIsDispatchAll(Reset(d, c), t, Command(d, c, budget, t).steps);
  }

  /**
   * What an exchange does to the flags. The reset lowers only `c`; every
   * other flag stays as it was or is raised by a reply. A flag left over from
   * an earlier exchange cannot satisfy the wait: success needs a reply
   * delivered during it, and a reply of `c`'s own slot is enough.
   */
  lemma CommandAck(d: Driver, c: Code, budget: real, t: Trace)
    requires ValidTrace(t, budget)
    ensures var w := Command(d, c, budget, t);
      var fs := Received(t, w);
      && w.driver == DispatchAll(Reset(d, c), fs)
      && w.driver.ack == (d.ack - {c}) + RaisedSet(fs)
      && (w.status.Satisfied? ==> c in RaisedSet(fs))
      && (w.status.TimedOut? ==> c !in RaisedSet(fs))
      && (c != VmGetCalibration && c != VmSetRange && !w.status.NoOperation? ==>
            (w.status.Satisfied? <==> LastWith(fs, SlotOf(c)).Some?))
      // nothing raises the VM set-range flag, so waiting for it never succeeds
      && (c == VmSetRange ==> !w.status.Satisfied?)
  {
    var w := Command(d, c, budget, t);
    var fs := Received(t, w);
    RunIsDispatchAll(Reset(d, c), t, w.steps);
    if c != VmGetCalibration && c != VmSetRange {
      RaisedOnlyBySlot(fs, c);
    }
    VmSetRangeNeverRaised(fs);
  }

  /**
   * Once the NOP flag is up, nothing lowers it: every later exchange for
   * another flag throws `NoOperation` at its first poll, if that poll is in time.
   */
  lemma NopSticky(d: Driver, c: Code, budget: real, t: Trace)
    requires ValidTrace(t, budget)
    requires Nop in d.ack && c != Nop
    requires t[0].elapsed <= budget
    ensures Command(d, c, budget, t).status.NoOperation?
    ensures Command(d, c, budget, t).steps == 1
    ensures Nop in Command(d, c, budget, t).driver.ack
  {
    var d' := Reset(d, c);
    RunAck(d', t, 1);
    NopFirstPoll(d', c, budget, t);
    assert Command(d, c, budget, t) == WaitFor(d', c, budget, t);
  }

  /** A finished exchange and the value left in the caller's output slot. */
  datatype Reply<T> = Reply(w: Waited, out: T)

  /* ---------------- source mode ---------------- */

  datatype SourceMode = Current | Voltage

  /** `toSourceMode`: indices 0 and 1 name the two modes; any other index falls back to current. */
  function ToSourceMode(i: nat): (m: SourceMode)
    ensures m == Voltage <==> i == 1
  {
    var values := [Current, Voltage];
    if i < |values| then values[i] else values[0]
  }

  /** The position of a mode in the table `toSourceMode` indexes (not a wire value). */
  function ModeIndex(m: SourceMode): (i: nat)
    ensures i < 2
  {
    if m == Current then 0 else 1
  }

  /** `toSourceMode` inverts the table position of each mode. */
  lemma ToSourceModeRoundTrip(m: SourceMode)
    ensures ToSourceMode(ModeIndex(m)) == m
  {
  }

  /** `setSourceMode`: on success the slot reads back the active source, the voltage source winning. */
  function SelectSource(d: Driver, mode: SourceMode, budget: real, t: Trace): (r: Reply<SourceMode>)
    requires ValidTrace(t, budget)
    ensures r.w == Command(d, SetSourceMode, budget, t)
    ensures !r.w.status.Satisfied? ==> r.out == mode
    // a reply naming a mode decides the slot
    ensures r.w.status.Satisfied? && LastSwitch(Received(t, r.w)).Some? ==>
      r.out == (if LastSwitch(Received(t, r.w)).value.word == ModeVoltage then Voltage else Current)
    // a reply naming no known mode leaves the readback to the earlier state
    ensures r.w.status.Satisfied? && LastSwitch(Received(t, r.w)).None? ==>
      r.out == (if d.vs.active then Voltage else if d.cs.active then Current else mode)
  {
    var w := Command(d, SetSourceMode, budget, t);
    CommandAck(d, SetSourceMode, budget, t);
    DispatchAllSources(Reset(d, SetSourceMode), Received(t, w));
    var fromCs := if w.driver.cs.active then Current else mode;
    Reply(w, if w.status.Satisfied? then (if w.driver.vs.active then Voltage else fromCs) else mode)
  }

  /* ---------------- per-channel exchanges ---------------- */

  /**
   * `CS_setRange`, `VS_setRange`, `CM_setRange`, `VM_setRange`, `VM2_setRange`:
   * on success the slot holds the range the last set-range reply confirmed.
   */
  function SetRange(d: Driver, ch: ChannelId, range: int, budget: real, t: Trace): (r: Reply<int>)
    requires ValidTrace(t, budget)
    ensures r.w == Command(d, SetRangeCode(ch), budget, t)
    ensures !r.w.status.Satisfied? ==> r.out == range
    ensures ch != Vm && r.w.status.Satisfied? ==>
      && LastWith(Received(t, r.w), SlotOf(SetRangeCode(ch))).Some?
      && r.out == LastWith(Received(t, r.w), SlotOf(SetRangeCode(ch))).value.word
    // the VM exchange never succeeds and never writes the slot
    ensures ch == Vm ==> !r.w.status.Satisfied? && r.out == range
  {
    ChannelCodesApart(ch);
    var w := Command(d, SetRangeCode(ch), budget, t);
    CommandAck(d, SetRangeCode(ch), budget, t);
    DispatchAllFields(Reset(d, SetRangeCode(ch)), Received(t, w));
    Reply(w, if w.status.Satisfied? then w.driver.Chan(ch).range else range)
  }

  /**
   * The exchange that confirms a channel's scalar: `CS_setCurrent`,
   * `VS_setVoltage`, `CM_read`, `VM_read`, `VM2_read`. On success the slot
   * holds what the last such reply carried.
   */
  function Level(d: Driver, ch: ChannelId, value: int, budget: real, t: Trace): (r: Reply<int>)
    requires ValidTrace(t, budget)
    ensures r.w == Command(d, LevelCode(ch), budget, t)
    ensures !r.w.status.Satisfied? ==> r.out == value
    ensures r.w.status.Satisfied? ==>
      && LastWith(Received(t, r.w), SlotOf(LevelCode(ch))).Some?
      && r.out == LastWith(Received(t, r.w), SlotOf(LevelCode(ch))).value.reading
  {
    ChannelCodesApart(ch);
    var w := Command(d, LevelCode(ch), budget, t);
    CommandAck(d, LevelCode(ch), budget, t);
    DispatchAllFields(Reset(d, LevelCode(ch)), Received(t, w));
    Reply(w, if w.status.Satisfied? then w.driver.Chan(ch).level else value)
  }

  /** The three calibration exchanges; only the two sources have a verify exchange. */
  datatype CalibrationKind = GetEntry | VerifyEntry | SetEntry

  function CalibrationCode(ch: ChannelId, kind: CalibrationKind): Code
    requires kind.VerifyEntry? ==> ch.IsSource()
  {
    match kind
    case GetEntry => GetCalibrationCode(ch)
    case VerifyEntry => VerifyCalibrationCode(ch)
    case SetEntry => SetCalibrationCode(ch)
  }

  /**
   * `<channel>_getCalibration`, `_verifyCalibration`, `_setCalibration`: on
   * success the slot holds the entry at the REQUESTED index, which is what the
   * last calibration reply of the channel for that index carried, or the entry
   * held before when no reply named that index.
   */
  function Calibration(d: Driver, ch: ChannelId, kind: CalibrationKind, index: int, point: CalPoint,
                       budget: real, t: Trace): (r: Reply<CalPoint>)
    requires kind.VerifyEntry? ==> ch.IsSource()
    requires ValidTrace(t, budget)
    ensures r.w == Command(d, CalibrationCode(ch, kind), budget, t)
    ensures !r.w.status.Satisfied? ==> r.out == point
    ensures r.w.status.Satisfied? ==>
      r.out == EntryAfter(Received(t, r.w), ch, index, d.Chan(ch).CalibrationAt(index))
  {
    var c := CalibrationCode(ch, kind);
    var w := Command(d, c, budget, t);
    CommandEntry(d, c, budget, t, ch, index);
    Reply(w, if w.status.Satisfied? then w.driver.Chan(ch).CalibrationAt(index) else point)
  }

  /** An exchange leaves each calibration entry at what its replies carried. */
  lemma CommandEntry(d: Driver, c: Code, budget: real, t: Trace, ch: ChannelId, index: int)
    requires ValidTrace(t, budget)
    ensures var w := Command(d, c, budget, t);
      w.driver.Chan(ch).CalibrationAt(index) == EntryAfter(Received(t, w), ch, index, d.Chan(ch).CalibrationAt(index))
  {
    var w := Command(d, c, budget, t);
    CommandRun(d, c, budget, t);
    DispatchAllCalibration(Reset(d, c), Received(t, w), ch, index);
    assert Reset(d, c).Chan(ch) == d.Chan(ch);
  }

  /** `<channel>_saveCalibration`: succeeds exactly when a save reply of the channel arrives in time. */
  function SaveCalibration(d: Driver, ch: ChannelId, budget: real, t: Trace): (w: Waited)
    requires ValidTrace(t, budget)
    ensures 0 < w.steps <= |t|
    ensures w.driver == DispatchAll(Reset(d, SaveCalibrationCode(ch)), Received(t, w))
    ensures !w.status.NoOperation? ==>
      (w.status.Satisfied? <==> LastWith(Received(t, w), SlotOf(SaveCalibrationCode(ch))).Some?)
  {
    ChannelCodesApart(ch);
    CommandAck(d, SaveCalibrationCode(ch), budget, t);
    Command(d, SaveCalibrationCode(ch), budget, t)
  }

  /** `<channel>_loadDefaultCalibration`: succeeds exactly when its reply arrives in time. */
  function LoadDefaultCalibration(d: Driver, ch: ChannelId, budget: real, t: Trace): (w: Waited)
    requires ValidTrace(t, budget)
    ensures 0 < w.steps <= |t|
    ensures w.driver == DispatchAll(Reset(d, LoadDefaultCalibrationCode(ch)), Received(t, w))
    ensures !w.status.NoOperation? ==>
      (w.status.Satisfied? <==> LastWith(Received(t, w), SlotOf(LoadDefaultCalibrationCode(ch))).Some?)
  {
    ChannelCodesApart(ch);
    CommandAck(d, LoadDefaultCalibrationCode(ch), budget, t);
    Command(d, LoadDefaultCalibrationCode(ch), budget, t)
  }

  /** `RM_readAutoscale`: on success the slot holds the resistance of the last resistance reply. */
  function ReadResistance(d: Driver, value: int, budget: real, t: Trace): (r: Reply<int>)
    requires ValidTrace(t, budget)
    ensures r.w == Command(d, RmReadAutoscale, budget, t)
    ensures !r.w.status.Satisfied? ==> r.out == value
    ensures r.w.status.Satisfied? ==>
      && LastWith(Received(t, r.w), SlotOf(RmReadAutoscale)).Some?
      && r.out == LastWith(Received(t, r.w), SlotOf(RmReadAutoscale)).value.reading
  {
    var w := Command(d, RmReadAutoscale, budget, t);
    CommandAck(d, RmReadAutoscale, budget, t);
    DispatchAllResistance(Reset(d, RmReadAutoscale), Received(t, w));
    Reply(w, if w.status.Satisfied? then w.driver.resistance else value)
  }

  /**
   * `VM_setTerminal` (`write` true) and `VM_getTerminal`: on success the slot
   * holds the terminal of the last terminal reply, of either kind.
   */
  function Terminal(d: Driver, write: bool, terminal: int, budget: real, t: Trace): (r: Reply<int>)
    requires ValidTrace(t, budget)
    ensures r.w == Command(d, if write then VmSetTerminal else VmGetTerminal, budget, t)
    ensures !r.w.status.Satisfied? ==> r.out == terminal
    ensures r.w.status.Satisfied? ==>
      && LastAmong(Received(t, r.w), TerminalCodes).Some?
      && r.out == LastAmong(Received(t, r.w), TerminalCodes).value.word
  {
    var c := if write then VmSetTerminal else VmGetTerminal;
    var w := Command(d, c, budget, t);
    CommandAck(d, c, budget, t);
    DispatchAllTerminal(Reset(d, c), Received(t, w));
    LastAmongCovers(Received(t, w), TerminalCodes, SlotOf(c));
    Reply(w, if w.status.Satisfied? then w.driver.vm.terminal else terminal)
  }

  /* ---------------- system configuration ---------------- */

  /** `SystemConfig_Save`: succeeds exactly when its reply arrives in time. */
  function SaveConfig(d: Driver, budget: real, t: Trace): (w: Waited)
    requires ValidTrace(t, budget)
    ensures 0 < w.steps <= |t|
    ensures w.driver == DispatchAll(Reset(d, SystemConfigSave), Received(t, w))
    ensures !w.status.NoOperation? ==>
      (w.status.Satisfied? <==> LastWith(Received(t, w), SlotOf(SystemConfigSave)).Some?)
  {
    CommandAck(d, SystemConfigSave, budget, t);
    Command(d, SystemConfigSave, budget, t)
  }

  /** `SystemConfig_LoadDefault`: succeeds exactly when its reply arrives in time. */
  function LoadDefaultConfig(d: Driver, budget: real, t: Trace): (w: Waited)
    requires ValidTrace(t, budget)
    ensures 0 < w.steps <= |t|
    ensures w.driver == DispatchAll(Reset(d, SystemConfigLoadDefault), Received(t, w))
    ensures !w.status.NoOperation? ==>
      (w.status.Satisfied? <==> LastWith(Received(t, w), SlotOf(SystemConfigLoadDefault)).Some?)
  {
    CommandAck(d, SystemConfigLoadDefault, budget, t);
    Command(d, SystemConfigLoadDefault, budget, t)
  }

  /**
   * Parameter ids of the board, bill-of-materials and bugfix parts of the
   * hardware version. Their numeric values are defined by the protocol
   * headers; only their distinctness matters here.
   */
  const BoardNoParam: int := 0
  const BomNoParam: int := 1
  const BugfixNoParam: int := 2

  /** A parameter exchange leaves parameter `id` at what its replies carried. */
  lemma CommandParam(d: Driver, c: Code, budget: real, t: Trace, id: int)
    requires ValidTrace(t, budget)
    ensures Command(d, c, budget, t).driver.Param(id) ==
      ParamAfter(Received(t, Command(d, c, budget, t)), id, d.Param(id))
  {
    var w := Command(d, c, budget, t);
    CommandRun(d, c, budget, t);
    DispatchAllParam(Reset(d, c), Received(t, w), id);
  }

  /** Parameter `id` after three runs of frames delivered one after the other. */
  function ParamThrough(f1: seq<Frame>, f2: seq<Frame>, f3: seq<Frame>, id: int, otherwise: int): int
  {
    ParamAfter(f3, id, ParamAfter(f2, id, ParamAfter(f1, id, otherwise)))
  }

  /**
   * Up to three chained parameter exchanges, each with the budget the
   * previous one left, stopping at the first one that does not return true.
   */
  function Chain(d: Driver, op: Code, budget: real, t1: Trace, t2: Trace, t3: Trace): (ws: seq<Waited>)
    requires ValidTrace(t1, budget) && ValidTrace(t2, Max0(budget)) && ValidTrace(t3, Max0(budget))
    ensures 1 <= |ws| <= 3
    ensures ws[0] == Command(d, op, budget, t1)
    ensures |ws| >= 2 ==> ws[1] == Command(ws[0].driver, op, ws[0].budget, t2)
    ensures |ws| == 3 ==> ws[2] == Command(ws[1].driver, op, ws[1].budget, t3)
    // every exchange but the last succeeded, and the last one is the first failure if any
    ensures |ws| >= 2 ==> ws[0].status.Satisfied?
    ensures |ws| == 3 ==> ws[1].status.Satisfied?
    ensures |ws| < 3 ==> !ws[|ws| - 1].status.Satisfied?
  {
    var w1 := Command(d, op, budget, t1);
    if !w1.status.Satisfied? then [w1]
    else
      var rest := ChainRest(w1, op, Max0(budget), t2, t3);
      if |rest| == 1 then [w1, rest[0]] else [w1, rest[0], rest[1]]
  }

  /** The second and third exchanges of a chain, after a first one that succeeded. */
  function ChainRest(w1: Waited, op: Code, bound: real, t2: Trace, t3: Trace): (ws: seq<Waited>)
    requires 0.0 <= w1.budget <= bound
    requires ValidTrace(t2, bound) && ValidTrace(t3, bound)
    ensures 1 <= |ws| <= 2
    ensures ws[0] == Command(w1.driver, op, w1.budget, t2)
    ensures |ws| == 2 ==> ws[0].status.Satisfied? && ws[1] == Command(ws[0].driver, op, ws[0].budget, t3)
    ensures |ws| == 1 ==> !ws[0].status.Satisfied?
  {
    WeakerBudget(t2, bound, w1.budget);
    var w2 := Command(w1.driver, op, w1.budget, t2);
    if !w2.status.Satisfied? then [w2]
    else
      WeakerBudget(t3, bound, w2.budget);
      [w2, Command(w2.driver, op, w2.budget, t3)]
  }

  /** Whether all three exchanges of a chain succeeded. */
  predicate AllSucceeded(ws: seq<Waited>)
  {
    |ws| == 3 && ws[2].status.Satisfied?
  }

  /** The sub-exchanges a composite operation ran, in order, and its output slot. */
  datatype Composite = Composite(waits: seq<Waited>, out: int)

  /**
   * `SystemConfig_Get_hardwareVersion` (`op` the get flag) and
   * `SystemConfig_Set_hardwareVersion` (`op` the set flag): the chain of
   * board, bill-of-materials and bugfix exchanges; the slot is assembled by
   * `make` (`MAKE_VERSION_NO`) only when all three succeed.
   */
  function HardwareVersion(d: Driver, op: Code, version: int, make: (int, int, int) -> int,
                           budget: real, t1: Trace, t2: Trace, t3: Trace): (r: Composite)
    requires op == SystemConfigGet || op == SystemConfigSet
    requires ValidTrace(t1, budget) && ValidTrace(t2, Max0(budget)) && ValidTrace(t3, Max0(budget))
    ensures r.waits == Chain(d, op, budget, t1, t2, t3)
    // the slot is untouched unless all three succeed
    ensures !AllSucceeded(r.waits) ==> r.out == version
    // and then it is assembled from the parameters the replies carried
    ensures AllSucceeded(r.waits) ==>
      var f1, f2, f3 := Received(t1, r.waits[0]), Received(t2, r.waits[1]), Received(t3, r.waits[2]);
      r.out == make(ParamThrough(f1, f2, f3, BoardNoParam, d.Param(BoardNoParam)),
                    ParamThrough(f1, f2, f3, BomNoParam, d.Param(BomNoParam)),
                    ParamThrough(f1, f2, f3, BugfixNoParam, d.Param(BugfixNoParam)))
  {
    var ws := Chain(d, op, budget, t1, t2, t3);
    if AllSucceeded(ws) then
      HardwareParts(d, op, budget, t1, t2, t3, BoardNoParam);
      HardwareParts(d, op, budget, t1, t2, t3, BomNoParam);
      HardwareParts(d, op, budget, t1, t2, t3, BugfixNoParam);
      var p := ws[2].driver;
      Composite(ws, make(p.Param(BoardNoParam), p.Param(BomNoParam), p.Param(BugfixNoParam)))
    else Composite(ws, version)
  }

  /** After three chained parameter exchanges, parameter `id` is what their replies carried. */
  lemma HardwareParts(d: Driver, op: Code, budget: real, t1: Trace, t2: Trace, t3: Trace, id: int)
    requires ValidTrace(t1, budget) && ValidTrace(t2, Max0(budget)) && ValidTrace(t3, Max0(budget))
    ensures var w1 := Command(d, op, budget, t1);
      var w2 := Command(w1.driver, op, w1.budget, t2);
      var w3 := Command(w2.driver, op, w2.budget, t3);
      w3.driver.Param(id) == ParamThrough(Received(t1, w1), Received(t2, w2), Received(t3, w3), id, d.Param(id))
  {
    var w1 := Command(d, op, budget, t1);
    var w2 := Command(w1.driver, op, w1.budget, t2);
    var w3 := Command(w2.driver, op, w2.budget, t3);
    CommandParam(d, op, budget, t1, id);
    CommandParam(w1.driver, op, w1.budget, t2, id);
    CommandParam(w2.driver, op, w2.budget, t3, id);
  }
}
