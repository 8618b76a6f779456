# XSMU driver core in Dafny

A model of `smu::Driver`, the host-side driver of the XPLORE source-measure
unit (libxsmu 2.4.0). The driver talks to the instrument over one serial link
with no per-message correlation: every operation lowers one bit of the
acknowledgement bitset `ackBits_`, transmits a request, and polls the
transport until an inbound frame's handler raises that bit, a NOP frame
arrives, or the caller's time budget runs out. Frames are routed by their code
through a positional table of 48 handlers (`comm_cb`). A handler stores its
payload in the driver and raises a bit: most write first and raise after,
`StartRecCB` raises its bit before it records the schedule
(virtuaSMU.cxx:639-642), and the handler in the voltmeter set-range slot
raises another slot's bit (the first finding below). Concurrency is not
modelled, so each handler's effect is taken as one step.

The model covers:

- the dispatch table and every handler (`codes.dfy`, `inbound.dfy`): which
  flag each slot raises and which driver field it writes, and, for a run of
  frames, which value every field ends up holding ("last writer wins",
  `fields.dfy`);
- both `waitForResponse` overloads (`wait.dfy`), with the transport and the
  clock given as an input trace of polls;
- the public exchanges (`ops.dfy`): source mode, per-channel range,
  calibration, level, save and load-default operations, resistance,
  terminal, system configuration and the chained hardware-version
  operations, each with the value left in the caller's output slot;
- streaming (`streaming.dfy`): record size, record data, start/stop,
  `getData` and `poll_stream`;
- the session (`lifecycle.dfy`): scan filter, identify, open, close,
  keep-alive, baud-rate change and the background thread's renewal test;
- three defects of the source (`findings.dfy`), each as written and corrected.

The model follows the code as written. Two consequences of the code are
worth stating:

- `poll_stream` subtracts the count it requested, because `recData` never
  writes a count back (virtuaSMU.cxx:857-864), so each cycle makes at most one
  data request;
- the renewal test divides the lease in milliseconds by 3000 in unsigned
  integer arithmetic (virtuaSMU.cxx:821), so a 10 s lease renews after 3 s.

## Model

| member | source | states |
|---|---|---|
| Codes.SlotOf | XSMU-2.4.0/code/app/src/virtuaSMU.cxx:85-148 | every flag has a slot in the table, and that slot holds the handler written for the flag |
| Codes.TableIsBijective | XSMU-2.4.0/code/app/src/virtuaSMU.cxx:85-148 | the 48 slots and the 48 flags are in one-to-one correspondence |
| State.CalibratedAppend | XSMU-2.4.0/code/app/src/virtuaSMU.cxx:625-628 | calibrating a concatenation of sample runs calibrates each run, so the calibrated queue can grow packet by packet |
| Inbound.SwitchSource | XSMU-2.4.0/code/app/src/virtuaSMU.cxx:185-203 | a known mode leaves exactly the source it names active and the other inactive; an unknown mode changes nothing; nothing but the two activity bits changes |
| Inbound.EffectOf | XSMU-2.4.0/code/app/src/virtuaSMU.cxx:157-656 | no handler stores the voltmeter range, only the identity handler stores the identity and only the record-data handler appends samples |
| Inbound.Apply | XSMU-2.4.0/code/app/src/virtuaSMU.cxx:157-656 | a handler's payload step never touches the flags or the thread flag |
| Inbound.SignalOwnFlag | XSMU-2.4.0/code/app/src/virtuaSMU.cxx:387-394 | no handler raises the VM set-range flag; every other handler raises its own flag |
| Inbound.Handle | XSMU-2.4.0/code/app/src/virtuaSMU.cxx:157-656 | running a handler raises exactly one flag and lowers none, and leaves the thread flag alone |
| Inbound.Dispatch | XSMU-2.4.0/code/app/src/virtuaSMU.cxx:85-152 | a frame whose code is 48 or more changes nothing; otherwise exactly the slot's flag is raised, only a record-data frame appends samples (raw and calibrated, in order) and the thread flag is untouched |
| Inbound.DispatchFields | XSMU-2.4.0/code/app/src/virtuaSMU.cxx:157-656 | only an identity reply writes the identity, no frame writes the VM range, and every other range and scalar is written only by the frame of its own slot |
| Inbound.NothingSignalsVmSetRange | XSMU-2.4.0/code/app/src/virtuaSMU.cxx:387-394 | no frame raises the VM set-range flag |
| Inbound.AnswersBySlot | XSMU-2.4.0/code/app/src/virtuaSMU.cxx:85-152 | a frame raises flag c exactly when its code is c's slot, except that slots 21 and 22 both raise the VM get-calibration flag and nothing raises the VM set-range flag |
| Inbound.RaisedSetMembers | XSMU-2.4.0/code/app/src/virtuaSMU.cxx:85-152 | a run of frames raises exactly the flags raised by one of its frames |
| Inbound.DispatchAllRaw | XSMU-2.4.0/code/app/src/virtuaSMU.cxx:612-633 | dispatching a run appends the record-data samples to the raw queue in arrival order |
| Inbound.DispatchAllCalibrated | XSMU-2.4.0/code/app/src/virtuaSMU.cxx:612-633 | and appends their calibrated images to the calibrated queue in the same order |
| Inbound.DispatchAllFields | XSMU-2.4.0/code/app/src/virtuaSMU.cxx:157-656 | after a run, the identity, the CS/VS/CM/VM2 ranges and every channel's scalar hold what the last frame of their slot carried; the VM range is unchanged |
| Inbound.RaisedOnlyBySlot | XSMU-2.4.0/code/app/src/virtuaSMU.cxx:85-152 | a flag other than the two VM ones is raised by a run exactly when a frame of its own slot is in the run |
| Inbound.VmSetRangeNeverRaised | XSMU-2.4.0/code/app/src/virtuaSMU.cxx:387-394 | no run of frames ever raises the VM set-range flag |
| Inbound.DispatchAllKeepsExclusive | XSMU-2.4.0/code/app/src/virtuaSMU.cxx:185-203 | the current and voltage sources are never both active after any run of frames, if they were not before |
| Fields.DispatchAllCalibration | XSMU-2.4.0/code/app/src/virtuaSMU.cxx:219-563 | after a run, a channel's calibration entry at an index is what the last calibration reply of that channel for that index carried (for the VM, the set-range slot counts as one) |
| Fields.DispatchAllParam | XSMU-2.4.0/code/app/src/virtuaSMU.cxx:480-496 | after a run, system-configuration parameter id is what the last get/set reply for that id carried |
| Fields.DispatchAllSources | XSMU-2.4.0/code/app/src/virtuaSMU.cxx:185-203 | after a run, the active source is the one named by the last source-mode reply naming a known mode; unknown modes change nothing |
| Fields.DispatchAllResistance | XSMU-2.4.0/code/app/src/virtuaSMU.cxx:468-475 | after a run, the resistance is what the last resistance reply carried |
| Fields.DispatchAllTerminal | XSMU-2.4.0/code/app/src/virtuaSMU.cxx:567-584 | after a run, the VM terminal is what the last set- or get-terminal reply carried |
| Fields.DispatchAllLink | XSMU-2.4.0/code/app/src/virtuaSMU.cxx:588-651 | after a run, the baud rate, record size, streaming flag and next poll time are what the last change-baud, record-size and start-record replies carried |
| Wait.RunIsDispatchAll | XSMU-2.4.0/code/app/src/virtuaSMU.cxx:745-773 | polling k times dispatches every frame delivered by those polls, in arrival order |
| Wait.FlagLoop | XSMU-2.4.0/code/app/src/virtuaSMU.cxx:748-770 | the single-flag loop exits at the first poll that is late, sees the NOP flag or sees the awaited flag, in that order of precedence |
| Wait.WaitFor | XSMU-2.4.0/code/app/src/virtuaSMU.cxx:745-773 | the single-flag wait returns whether the flag is up; it stops early only on the flag or a NOP; a NOP in time throws and leaves the budget alone, and a late poll never throws; otherwise the budget becomes 0 if late, else what is left; it never goes negative |
| Wait.NopFirstPoll | XSMU-2.4.0/code/app/src/virtuaSMU.cxx:745-773 | a NOP flag up at the first poll in time ends the wait there with the exception |
| Wait.MaskLoop | XSMU-2.4.0/code/app/src/virtuaSMU.cxx:720-740 | the multi-flag loop exits at the first poll that is late or finds every flag of the mask up |
| Wait.WaitForAll | XSMU-2.4.0/code/app/src/virtuaSMU.cxx:717-743 | the multi-flag wait exits only when the mask is a subset of the flags or the budget is exceeded, returns whether the mask is a subset, and sets the budget to 0 if late, else to what is left |
| Ops.Reset | XSMU-2.4.0/code/app/src/virtuaSMU.cxx:894 | lowering a flag lowers it and changes nothing else |
| Ops.Command | XSMU-2.4.0/code/app/src/virtuaSMU.cxx:890-899 | an exchange makes at least one and at most every poll of the trace; a throw happens only at a poll in time and leaves the budget alone with the NOP flag up; otherwise the budget is what the last poll left |
| Ops.CommandRun | XSMU-2.4.0/code/app/src/virtuaSMU.cxx:890-899 | an exchange dispatches, in order, every frame its polls delivered |
| Ops.CommandAck | XSMU-2.4.0/code/app/src/virtuaSMU.cxx:890-899 | after an exchange the flags are the old ones minus its own plus the raised ones; success needs a reply delivered during the exchange; for flags other than the VM pair, success is equivalent to a reply of the flag's own slot; the VM set-range exchange never succeeds |
| Ops.NopSticky | XSMU-2.4.0/code/app/src/virtuaSMU.cxx:745-773 | once the NOP flag is up every later exchange for another flag throws at its first poll |
| Ops.ToSourceMode | XSMU-2.4.0/code/app/src/virtuaSMU.cxx:14-23 | index 1 is the voltage mode and every other index the current mode |
| Ops.ToSourceModeRoundTrip | XSMU-2.4.0/code/app/src/virtuaSMU.cxx:14-23 | `toSourceMode` maps each mode's position in its table back to that mode |
| Ops.SelectSource | XSMU-2.4.0/code/app/src/virtuaSMU.cxx:871-885 | on success the slot reads back the source named by the last source-mode reply, the voltage source winning; on failure it keeps the requested mode |
| Ops.SetRange | XSMU-2.4.0/code/app/src/virtuaSMU.cxx:890-899 | on success the slot holds the range the last set-range reply of the channel confirmed, else it is untouched; the VM exchange never succeeds and never writes the slot |
| Ops.Level | XSMU-2.4.0/code/app/src/virtuaSMU.cxx:963-972 | on success the slot holds what the last set-current, set-voltage or read reply of the channel carried, else it is untouched |
| Ops.Calibration | XSMU-2.4.0/code/app/src/virtuaSMU.cxx:903-914 | on success the slot holds the entry at the requested index as the last calibration reply for that index left it, else it is untouched |
| Ops.SaveCalibration | XSMU-2.4.0/code/app/src/virtuaSMU.cxx:952-959 | the save exchange succeeds, unless it throws, exactly when a save reply of the channel arrives |
| Ops.LoadDefaultCalibration | XSMU-2.4.0/code/app/src/virtuaSMU.cxx:1214-1221 | the load-default exchange succeeds, unless it throws, exactly when its reply arrives |
| Ops.ReadResistance | XSMU-2.4.0/code/app/src/virtuaSMU.cxx:1259-1269 | on success the slot holds the resistance the last resistance reply carried, else it is untouched |
| Ops.Terminal | XSMU-2.4.0/code/app/src/virtuaSMU.cxx:1453-1473 | on success the slot holds the terminal the last set- or get-terminal reply carried, else it is untouched |
| Ops.SaveConfig | XSMU-2.4.0/code/app/src/virtuaSMU.cxx:1274-1281 | the configuration save succeeds, unless it throws, exactly when its reply arrives |
| Ops.LoadDefaultConfig | XSMU-2.4.0/code/app/src/virtuaSMU.cxx:1283-1290 | the configuration load-default succeeds, unless it throws, exactly when its reply arrives |
| Ops.CommandParam | XSMU-2.4.0/code/app/src/virtuaSMU.cxx:480-496 | a parameter exchange leaves each parameter at what the replies it received carried |
| Ops.Chain | XSMU-2.4.0/code/app/src/virtuaSMU.cxx:1292-1326 | the three parameter exchanges run in order, each with the budget the previous one left, and the chain stops at the first one that does not return true |
| Ops.HardwareVersion | XSMU-2.4.0/code/app/src/virtuaSMU.cxx:1328-1365 | the version slot is untouched unless all three exchanges succeed, and then it is assembled from the board, BOM and bugfix parameters the replies carried |
| Ops.HardwareParts | XSMU-2.4.0/code/app/src/virtuaSMU.cxx:1292-1326 | after three chained parameter exchanges each parameter is what their replies carried |
| Streaming.QueryRecSize | XSMU-2.4.0/code/app/src/virtuaSMU.cxx:1497-1512 | on success the slot holds the count of the last record-size reply, else it is untouched |
| Streaming.RequestData | XSMU-2.4.0/code/app/src/virtuaSMU.cxx:1516-1533 | the exchange appends the received samples to both queues in order, and succeeds, unless it throws, exactly when a record-data reply arrives |
| Streaming.StartRecording | XSMU-2.4.0/code/app/src/virtuaSMU.cxx:1563-1580 | on success streaming is enabled and the next poll is due at the start reply's arrival time; a timeout leaves both as they were; whatever the wait returned, a thrown one included, streaming is on afterwards exactly when it was before or a start reply arrived |
| Streaming.StopRecording | XSMU-2.4.0/code/app/src/virtuaSMU.cxx:1582-1608 | streaming is disabled afterwards whatever the wait returned, unless the wait threw |
| Streaming.DrainLoop | XSMU-2.4.0/code/app/src/virtuaSMU.cxx:1553-1558 | the drain loop moves the whole calibrated queue out, oldest first, and pops as many raw samples |
| Streaming.GetData | XSMU-2.4.0/code/app/src/virtuaSMU.cxx:1537-1559 | `getData` returns every calibrated value oldest first, empties the calibrated queue, pops the raw queue in lockstep and changes nothing else |
| Streaming.GetDataTwice | XSMU-2.4.0/code/app/src/virtuaSMU.cxx:1537-1559 | a second drain with no frame in between returns nothing and changes nothing |
| Streaming.GetDataLockstep | XSMU-2.4.0/code/app/src/virtuaSMU.cxx:1537-1559 | draining queues that are in lockstep empties both |
| Streaming.DispatchAllLockstep | XSMU-2.4.0/code/app/src/virtuaSMU.cxx:612-633 | dispatching frames keeps the two queues in lockstep |
| Streaming.GetDataInOrder | XSMU-2.4.0/code/app/src/virtuaSMU.cxx:612-633 | after a run of frames, a drain returns the values queued before and then the calibrated record-data samples, in arrival order |
| Streaming.RequestLoop | XSMU-2.4.0/code/app/src/virtuaSMU.cxx:857-866 | the request loop terminates after at most one request, for exactly the count it was entered with, and none when that count is zero |
| Streaming.PollStream | XSMU-2.4.0/code/app/src/virtuaSMU.cxx:846-867 | `poll_stream` sends no data request when the record-size exchange throws or yields zero, and otherwise exactly one, for exactly that count |
| Session.ScanFilter | XSMU-2.4.0/code/app/src/virtuaSMU.cxx:28-47 | the scan keeps exactly the devices described as "XPLORE SMU" |
| Session.ScanFilterAppend | XSMU-2.4.0/code/app/src/virtuaSMU.cxx:28-47 | the scan keeps the devices in the order found |
| Session.GoodId | XSMU-2.4.0/code/app/src/virtuaSMU.cxx:778-781 | the definition is `goodID`'s string equality with "XPLORE SMU"; its contract states only that the empty identity `identify` starts from is never good (the equivalence with the last identity reply is `Session.GoodIdAfterIdentify`) |
| Session.GoodIdAfterIdentify | XSMU-2.4.0/code/app/src/virtuaSMU.cxx:778-791 | after identification the identity is good exactly when the last identity reply named the product |
| Session.Identify | XSMU-2.4.0/code/app/src/virtuaSMU.cxx:783-791 | after identification the identity is the name the last identity reply carried, or empty; it succeeds, unless it throws, exactly when such a reply arrives |
| Session.Open | XSMU-2.4.0/code/app/src/virtuaSMU.cxx:661-692 | the thread is started exactly when identification returns with the product name, and then streaming is off; an instrument that never names itself is never opened |
| Session.SendKeepAlive | XSMU-2.4.0/code/app/src/virtuaSMU.cxx:795-805 | the keep-alive exchange succeeds, unless it throws, exactly when a keep-alive reply arrives, and does not touch the thread flag |
| Session.Close | XSMU-2.4.0/code/app/src/virtuaSMU.cxx:694-715 | after `close` the thread flag is down whatever the keep-alive exchange did, and the keep-alive flag is up exactly when its reply arrived |
| Session.ChangeBaudRate | XSMU-2.4.0/code/app/src/virtuaSMU.cxx:1478-1493 | on success the slot holds the baud rate the last change-baud reply confirmed, else it is untouched |
| Session.RenewalDue | XSMU-2.4.0/code/app/src/virtuaSMU.cxx:821 | the renewal test, which divides the lease in milliseconds by 3000 in integer arithmetic, never fires before any time has passed and always fires once a third of the lease has passed |
| Session.TruncatedThird | XSMU-2.4.0/code/app/src/virtuaSMU.cxx:821 | the lease third in whole seconds is at most the exact third and less than a second below it |
| Session.RenewalNeverLate | XSMU-2.4.0/code/app/src/virtuaSMU.cxx:821 | the lease is renewed no later than a third of it |
| Session.RenewalAtMostOneSecondEarly | XSMU-2.4.0/code/app/src/virtuaSMU.cxx:821 | the lease is renewed at most one second before a third of it |
| Session.DefaultLeaseRenewal | XSMU-2.4.0/code/app/src/virtuaSMU.cxx:811-822 | with the thread's 10 s lease, renewal is due exactly after 3 s |
| Session.ShortLeaseRenewal | XSMU-2.4.0/code/app/src/virtuaSMU.cxx:821 | a lease under 3 s is renewed on every pass once any time has passed |
| Findings.MisreadFrame | XSMU-2.4.0/code/app/src/virtuaSMU.cxx:387-394 | a VM set-range reply raises the get-calibration flag, leaves the VM range and overwrites a calibration entry |
| Findings.MisreadRun | XSMU-2.4.0/code/app/src/virtuaSMU.cxx:748-770 | polling the counterexample trace dispatches exactly its one reply, and its empty second poll changes nothing |
| Findings.MisreadWait | XSMU-2.4.0/code/app/src/virtuaSMU.cxx:1140-1149 | the wait for the VM set-range flag sees that reply in time and still times out |
| Findings.VmSetRangeReplyMisread | XSMU-2.4.0/code/app/src/virtuaSMU.cxx:1140-1149 | a VM set-range exchange whose reply arrives in time times out, leaves the caller's range and the VM range unchanged and overwrites calibration entry 0 |
| Findings.CorrectedEffectOf | XSMU-2.4.0/code/app/src/virtuaSMU.cxx:387-394 | with the slot repaired, each channel's range, the voltmeter's included, is stored by exactly its own set-range handler |
| Findings.CorrectedDispatch | XSMU-2.4.0/code/app/src/virtuaSMU.cxx:85-152 | with the slot repaired, every frame raises exactly its own slot's flag |
| Findings.CorrectedRaisesOwnFlag | XSMU-2.4.0/code/app/src/virtuaSMU.cxx:85-152 | a flag newly up after a repaired dispatch was raised by a frame of its own slot |
| Findings.CorrectedVmSetRange | XSMU-2.4.0/code/app/src/virtuaSMU.cxx:387-394 | the repaired slot stores the VM range, raises the set-range flag and leaves the calibration table alone |
| Findings.CorrectedAgreesElsewhere | XSMU-2.4.0/code/app/src/virtuaSMU.cxx:85-152 | every other slot behaves exactly as in the table as written |
| Findings.CorrectedCommandThrowsOnlyOnNop | XSMU-2.4.0/code/app/src/virtuaSMU.cxx:745-773 | with a stale NOP flag lowered at the start of an exchange, the exchange throws only when a NOP reply arrived during it |
| Findings.SilenceTimesOut | XSMU-2.4.0/code/app/src/virtuaSMU.cxx:745-773 | a wait over which nothing arrives times out at its only poll, leaving the driver as it was |
| Findings.UnsetSizeRequested | XSMU-2.4.0/code/app/src/virtuaSMU.cxx:846-867 | when the record-size exchange times out, `poll_stream` requests as many samples as the uninitialised size holds |
| Findings.PollStreamInitialised | XSMU-2.4.0/code/app/src/virtuaSMU.cxx:846-867 | with the size initialised to zero, a request is sent only after a record-size reply, for exactly the count it announced |

## Left out

- The transport: opening and closing the port, transmitting requests (and so every value only transmitted, such as filter lengths, leases, record-data counts and calibration values sent), and the port retune in the change-baud handler. Its `check` call is the frames of a trace step.
- Threads, the link lock and the queue lock, and `std::async`; of the background thread only the renewal test is modelled. Its opening keep-alive and its scheduling of `poll_stream` every `_poll_stream_interval` are not.
- The timer: elapsed times come from the trace, and the sleeps between polls only advance the clock. Clock monotonicity is not required.
- Floating point: currents, voltages, resistances and calibration values are opaque integers; times and budgets are exact reals, without `float` rounding.
- Console output, version printing and `versionInfo_`, which the identity handler fills but nothing reads.
- The range, terminal and source-mode conversions (`toCS_Range`, `toVM_Terminal`, ...), taken to pass the wire word through.
- The numeric callback codes and system-configuration parameter ids, which come from protocol headers that are not part of this model: flags are symbolic, a frame's code is its position in the table, and the three hardware-version parameter ids are the distinct stand-ins 0, 1 and 2.
- `MAKE_VERSION_NO`: it is the parameter `make` of `Ops.HardwareVersion`. `MAJOR_VERSION_NO` and its siblings only shape transmitted values.
- The channel holder classes: their state is plain fields, and calibration tables are maps whose unreceived entries read as zero; holder array bounds are not modelled.
- The driver's constructor and destructor.
- Inbound.Dispatch: the record-data handler reads as many samples as the packet's size field says; the model takes the field to equal the number of samples carried, since reading past them is undefined behaviour.
- Streaming.GetData: popping the raw queue when it is shorter than the calibrated one is undefined behaviour in the source; the model leaves the empty queue empty.
- Streaming.RequestData: takes no count argument, since the count is only transmitted and the caller's variable is never written.
- Findings.CorrectedDispatch: the repair is proved frame by frame; the exchanges model the table as written.
- Findings.CorrectedCommandThrowsOnlyOnNop: the repair is stated for one exchange; the operations keep the exchange as written.

## Findings

| source | as written | input that shows it | evidently intended | confidence | as-written member | corrected member |
|---|---|---|---|---|---|---|
| XSMU-2.4.0/code/app/src/virtuaSMU.cxx:387-394 | the handler in the VM set-range slot is a copy of the VM get-calibration handler: it stores a calibration entry and raises the get-calibration flag, so `VM_setRange` never succeeds | a VM set-range reply (wire slot 21) arriving 0.5 s into a 1 s budget | store the VM range and raise the VM set-range flag | high (not executed) | Findings.VmSetRangeReplyMisread | Findings.CorrectedVmSetRange |
| XSMU-2.4.0/code/app/src/virtuaSMU.cxx:846-867 | `size` is read uninitialised when the record-size exchange does not return true, and that many samples are requested | a record-size exchange that times out while `size` happens to hold 7 | initialise `size` to 0, so a failed exchange requests nothing | high (not executed) | Findings.UnsetSizeRequested | Findings.PollStreamInitialised |
| XSMU-2.4.0/code/app/src/virtuaSMU.cxx:157-160 | `nopCB` raises the NOP flag and no code path lowers it, so `waitForResponse` (lines 766-767) throws `NoOperation` at the first in-time poll of every later exchange | one NOP reply, then any exchange for another flag whose first poll is in time | lower the NOP flag when an exchange starts, so only a NOP received during it throws | medium (not executed) | Ops.NopSticky | Findings.CorrectedCommandThrowsOnlyOnNop |
