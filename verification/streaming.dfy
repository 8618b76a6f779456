/**
 * Data streaming: the record-size, record-data, start and stop exchanges,
 * `getData`, which drains the two sample queues, and `poll_stream`, which the
 * background thread runs while recording is enabled.
 */
module Streaming {
  import opened Codes
  import opened State
  import opened Inbound
  import opened Fields
  import opened Wait
  import opened Ops

  /** `recSize`: on success the slot holds the count of the last record-size reply. */
  function QueryRecSize(d: Driver, size: u16, budget: real, t: Trace): (r: Reply<u16>)
    requires ValidTrace(t, budget)
    ensures r.w == Command(d, RecSize, budget, t)
    ensures !r.w.status.Satisfied? ==> r.out == size
    ensures r.w.status.Satisfied? ==>
      && LastWith(Received(t, r.w), SlotOf(RecSize)).Some?
      && r.out == LastWith(Received(t, r.w), SlotOf(RecSize)).value.count
  {
    var w := Command(d, RecSize, budget, t);
    CommandAck(d, RecSize, budget, t);
    DispatchAllLink(Reset(d, RecSize), Received(t, w));
    Reply(w, if w.status.Satisfied? then w.driver.recSize else size)
  }

  /**
   * `recData`: request the queued samples. The reply's handler appends its
   * samples to both queues; the requested count is only transmitted and is
   * never written back.
   */
  function RequestData(d: Driver, budget: real, t: Trace): (w: Waited)
    requires ValidTrace(t, budget)
    ensures 0 < w.steps <= |t|
    ensures w.driver.dataq32 == d.dataq32 + Samples(Received(t, w))
    ensures w.driver.dataq == d.dataq + Calibrated(Samples(Received(t, w)))
    ensures !w.status.NoOperation? ==>
      (w.status.Satisfied? <==> LastWith(Received(t, w), SlotOf(RecData)).Some?)
  {
    var w := Command(d, RecData, budget, t);
    CommandAck(d, RecData, budget, t);
    DispatchAllRaw(Reset(d, RecData), Received(t, w));
    DispatchAllCalibrated(Reset(d, RecData), Received(t, w));
    w
  }

  /**
   * `StartRec`: on success a start-record reply arrived, so streaming is
   * enabled and the next poll is due at that reply's arrival time.
   */
  function StartRecording(d: Driver, budget: real, t: Trace): (w: Waited)
    requires ValidTrace(t, budget)
    ensures 0 < w.steps <= |t|
    ensures !w.status.NoOperation? ==>
      (w.status.Satisfied? <==> LastWith(Received(t, w), SlotOf(StartRec)).Some?)
    ensures w.status.Satisfied? ==>
      && w.driver.rec
      && w.driver.pollStreamAt == LastWith(Received(t, w), SlotOf(StartRec)).value.at
    // without a reply, streaming stays as it was
    ensures w.status.TimedOut? ==> w.driver.rec == d.rec && w.driver.pollStreamAt == d.pollStreamAt
    // whatever the wait returned, a thrown one included, only a start reply turns streaming on
    ensures w.driver.rec == (d.rec || LastWith(Received(t, w), SlotOf(StartRec)).Some?)
    ensures LastWith(Received(t, w), SlotOf(StartRec)).None? ==> w.driver.pollStreamAt == d.pollStreamAt
  {
    var w := Command(d, StartRec, budget, t);
    CommandAck(d, StartRec, budget, t);
    DispatchAllLink(Reset(d, StartRec), Received(t, w));
    w
  }

  /**
   * `StopRec`: streaming is disabled after the wait whatever it returned,
   * unless the wait threw, which skips the assignment.
   */
  function StopRecording(d: Driver, budget: real, t: Trace): (w: Waited)
    requires ValidTrace(t, budget)
    ensures 0 < w.steps <= |t|
    ensures !w.status.NoOperation? ==> !w.driver.rec
    ensures w.status.NoOperation? ==>
      w.driver.rec == (d.rec || LastWith(Received(t, w), SlotOf(StartRec)).Some?)
    ensures !w.status.NoOperation? ==>
      (w.status.Satisfied? <==> LastWith(Received(t, w), SlotOf(StopRec)).Some?)
  {
    var w := Command(d, StopRec, budget, t);
    CommandAck(d, StopRec, budget, t);
    DispatchAllLink(Reset(d, StopRec), Received(t, w));
    if w.status.NoOperation? then w else w.(driver := w.driver.(rec := false))
  }

  /* ---------------- draining the queues ---------------- */

  /** `s` without its first `n` elements; popping an empty queue leaves it empty. */
  function Drop(s: seq<int>, n: nat): (r: seq<int>)
    ensures n <= |s| ==> r == s[n..]
    ensures n >= |s| ==> r == []
  {
    if n <= |s| then s[n..] else []
  }

  /** What `getData` returns and the driver it leaves. */
  datatype Drained = Drained(values: seq<int>, driver: Driver)

  /**
   * The loop of `getData`: while the calibrated queue is not empty, move its
   * front value out and pop both queues.
   */
  function DrainLoop(values: seq<int>, d: Driver): (r: Drained)
    ensures r.values == values + d.dataq
    ensures r.driver == d.(dataq := [], dataq32 := Drop(d.dataq32, |d.dataq|))
    decreases |d.dataq|
  {
    if |d.dataq| == 0 then
      assert values + d.dataq == values;
      Drained(values, d)
    else
      var next := d.(dataq := d.dataq[1..], dataq32 := Drop(d.dataq32, 1));
      var r := DrainLoop(values + [d.dataq[0]], next);
      AppendAssoc(values, [d.dataq[0]], d.dataq[1..]);
      assert [d.dataq[0]] + d.dataq[1..] == d.dataq;
      assert Drop(Drop(d.dataq32, 1), |d.dataq| - 1) == Drop(d.dataq32, |d.dataq|);
      r
  }

  /** `getData`: every calibrated value, oldest first; both queues are emptied in lockstep. */
  function GetData(d: Driver): (r: Drained)
    ensures r.values == d.dataq
    ensures r.driver.dataq == []
    ensures r.driver.dataq32 == Drop(d.dataq32, |d.dataq|)
    // nothing but the two queues changes
    ensures r.driver.(dataq := d.dataq, dataq32 := d.dataq32) == d
  {
    assert [] + d.dataq == d.dataq;
    DrainLoop([], d)
  }

  /** A second drain with no frame in between returns nothing. */
  lemma GetDataTwice(d: Driver)
    ensures GetData(GetData(d).driver).values == []
    ensures GetData(GetData(d).driver).driver == GetData(d).driver
  {
    var e := GetData(d).driver;
    assert Drop(e.dataq32, 0) == e.dataq32;
  }

  /** Draining queues in lockstep empties both. */
  lemma GetDataLockstep(d: Driver)
    requires Lockstep(d)
    ensures GetData(d).driver.dataq32 == []
    ensures Lockstep(GetData(d).driver)
  {
  }

  /** Dispatching frames keeps the queues in lockstep. */
  lemma DispatchAllLockstep(d: Driver, fs: seq<Frame>)
    requires Lockstep(d)
    ensures Lockstep(DispatchAll(d, fs))
  {
    DispatchAllRaw(d, fs);
    DispatchAllCalibrated(d, fs);
    CalibratedAppend(d.dataq32, Samples(fs));
  }

  /**
   * The values a drain returns after a run of frames are the ones queued
   * before, then the calibrated samples of the record-data replies, in
   * arrival order.
   */
  lemma GetDataInOrder(d: Driver, fs: seq<Frame>)
    ensures GetData(DispatchAll(d, fs)).values == d.dataq + Calibrated(Samples(fs))
  {
    DispatchAllCalibrated(d, fs);
  }

  /* ---------------- poll_stream ---------------- */

  /** Budget of the record-size exchange in `poll_stream`, in seconds. */
  const SizeBudget: real := 1.0

  /** Budget of each record-data exchange in `poll_stream`, in seconds. */
  const DataBudget: real := 10.0

  /**
   * The request loop of `poll_stream`: while `size` is not zero, request
   * samples and subtract the count just requested, in 16-bit arithmetic.
   * Since the count requested is `size` itself, the loop makes at most one
   * request.
   */
  method RequestLoop(d: Driver, size: u16, traces: seq<Trace>)
    returns (r: Driver, requests: seq<u16>, thrown: bool)
    requires |traces| > 0
    requires forall i :: 0 <= i < |traces| ==> ValidTrace(traces[i], DataBudget)
    ensures size == 0 ==> requests == [] && r == d && !thrown
    ensures size != 0 ==>
      var w := RequestData(d, DataBudget, traces[0]);
      requests == [size] && r == w.driver && thrown == w.status.NoOperation?
  {
    r, requests, thrown := d, [], false;
    var left := size;
    ghost var first := RequestData(d, DataBudget, traces[0]);
    while left != 0
      invariant left == 0 || left == size
      invariant left == size ==> requests == [] && r == d && !thrown
      invariant left == 0 && size != 0 ==>
        requests == [size] && r == first.driver && thrown == first.status.NoOperation?
      decreases left
    {
      var rx := left;
      var w := RequestData(r, DataBudget, traces[|requests|]);
      r := w.driver;
      requests := requests + [rx];
      if w.status.NoOperation? {
        thrown := true;
        return;
      }
      left := (left - rx) % 0x1_0000;
    }
  }

  /**
   * `poll_stream`: read the record size with a one-second budget, then run
   * the request loop on it. `unset` is the value of the uninitialised `size`
   * when the record-size exchange does not return true. `thrown` reports a
   * `NoOperation` escaping from either exchange.
   */
  method PollStream(d: Driver, unset: u16, sizeTrace: Trace, dataTraces: seq<Trace>)
    returns (r: Driver, requests: seq<u16>, thrown: bool)
    requires ValidTrace(sizeTrace, SizeBudget)
    requires |dataTraces| > 0
    requires forall i :: 0 <= i < |dataTraces| ==> ValidTrace(dataTraces[i], DataBudget)
    ensures var q := QueryRecSize(d, unset, SizeBudget, sizeTrace);
      && (q.w.status.NoOperation? ==> requests == [] && r == q.w.driver && thrown)
      // a count of zero sends no request
      && (!q.w.status.NoOperation? && q.out == 0 ==> requests == [] && r == q.w.driver && !thrown)
      // any other count sends exactly one request, for exactly that count
      && (!q.w.status.NoOperation? && q.out != 0 ==>
            var w := RequestData(q.w.driver, DataBudget, dataTraces[0]);
            requests == [q.out] && r == w.driver && thrown == w.status.NoOperation?)
  {
    var q := QueryRecSize(d, unset, SizeBudget, sizeTrace);
    if q.w.status.NoOperation? {
      r, requests, thrown := q.w.driver, [], true;
      return;
    }
    r, requests, thrown := RequestLoop(q.w.driver, q.out, dataTraces);
  }
}
