/**
 * The session around the exchanges: device scan, identification, open and
 * close, the keep-alive exchange and the background thread's renewal test.
 */
module Session {
  import opened Codes
  import opened State
  import opened Inbound
  import opened Fields
  import opened Wait
  import opened Ops

  /** The only instrument name the driver accepts. */
  const ProductName: string := "XPLORE SMU"

  /* ---------------- scan ---------------- */

  /** What the transport reports about one attached device. */
  datatype DeviceInfo = DeviceInfo(serialNo: string, description: string)

  /** `scan`: the attached devices whose description is the product name, in the order found. */
  function ScanFilter(devices: seq<DeviceInfo>): (r: seq<DeviceInfo>)
    ensures |r| <= |devices|
    ensures forall i :: 0 <= i < |r| ==> r[i].description == ProductName
    ensures forall x :: x in r <==> x in devices && x.description == ProductName
    decreases |devices|
  {
    if |devices| == 0 then []
    else
      var rest := ScanFilter(devices[1..]);
      assert forall x :: x in devices <==> x == devices[0] || x in devices[1..];
      if devices[0].description == ProductName then [devices[0]] + rest else rest
  }

  /** The filter keeps relative order: filtering a concatenation filters each part. */
  lemma {:induction false} ScanFilterAppend(a: seq<DeviceInfo>, b: seq<DeviceInfo>)
    ensures ScanFilter(a + b) == ScanFilter(a) + ScanFilter(b)
    decreases |a|
  {
    if |a| > 0 {
      assert (a + b)[1..] == a[1..] + b;
      assert (a + b)[0] == a[0];
      ScanFilterAppend(a[1..], b);
    } else {
      assert a + b == b;
    }
  }

  /* ---------------- identification ---------------- */

  /** `goodID`: the identity string is exactly the product name. */
  function GoodId(d: Driver): (good: bool)
    // the identity `identify` clears is never good
    ensures good ==> d.identity != ""
  {
    d.identity == ProductName
  }

  /**
   * `identify`: clear the identity string, lower the identity flag and wait
   * for an identity reply. The identity afterwards is the name the last
   * reply carried, or empty.
   */
  function Identify(d: Driver, budget: real, t: Trace): (w: Waited)
    requires ValidTrace(t, budget)
    ensures 0 < w.steps <= |t|
    ensures w.driver.identity == LastIdentity(Received(t, w), "")
    ensures w.driver.alive == d.alive
    ensures !w.status.NoOperation? ==>
      (w.status.Satisfied? <==> LastWith(Received(t, w), SlotOf(Idn)).Some?)
  {
    var e := d.(identity := "");
    var w := Command(e, Idn, budget, t);
    CommandAck(e, Idn, budget, t);
    DispatchAllFields(Reset(e, Idn), Received(t, w));
    w
  }

  /** After identification the identity is good exactly when the last identity reply named the product. */
  lemma GoodIdAfterIdentify(d: Driver, budget: real, t: Trace)
    requires ValidTrace(t, budget)
    ensures var w := Identify(d, budget, t);
      var last := LastWith(Received(t, w), SlotOf(Idn));
      GoodId(w.driver) <==> last.Some? && last.value.identity == ProductName
  {
    assert ProductName != "" by {
      assert |ProductName| == 10;
    }
  }

  /**
   * `open`: identify, and start the background thread (`_alive`, streaming
   * off) only when the reply named the product. A `NoOperation` from the
   * identification escapes and starts nothing.
   */
  function Open(d: Driver, budget: real, t: Trace): (w: Waited)
    requires ValidTrace(t, budget)
    ensures 0 < w.steps <= |t|
    ensures w.driver.identity == LastIdentity(Received(t, w), "")
    // the thread starts exactly when the identification returned with the product name
    ensures w.driver.alive <==> d.alive || (!w.status.NoOperation? && GoodId(w.driver))
    ensures !w.status.NoOperation? && GoodId(w.driver) ==> !w.driver.rec
    // an instrument that never named itself is never opened
    ensures LastWith(Received(t, w), SlotOf(Idn)).None? ==> w.driver.alive == d.alive
  {
    var w := Identify(d, budget, t);
    if !w.status.NoOperation? && GoodId(w.driver) then w.(driver := w.driver.(alive := true, rec := false))
    else w
  }

  /* ---------------- keep-alive ---------------- */

  /**
   * `keepAlive`: lower the keep-alive flag and wait for the reply; the
   * lease is only transmitted.
   */
  function SendKeepAlive(d: Driver, budget: real, t: Trace): (w: Waited)
    requires ValidTrace(t, budget)
    ensures 0 < w.steps <= |t|
    ensures w.driver.alive == d.alive
    ensures !w.status.NoOperation? ==>
      (w.status.Satisfied? <==> LastWith(Received(t, w), SlotOf(KeepAlive)).Some?)
  {
    CommandAck(d, KeepAlive, budget, t);
    Command(d, KeepAlive, budget, t)
  }

  /** Budget of the keep-alive exchange `close` sends, in seconds. */
  const CloseBudget: real := 1.0

  /**
   * `close`: ask the thread to stop, then send a zero lease with a
   * one-second budget, swallowing whatever the exchange throws. The thread
   * stays stopped however the exchange ends.
   */
  function Close(d: Driver, t: Trace): (r: Driver)
    requires ValidTrace(t, CloseBudget)
    ensures !r.alive
    // the keep-alive flag is up afterwards exactly when a keep-alive reply arrived during the exchange
    ensures var w := SendKeepAlive(d.(alive := false), CloseBudget, t);
      r == w.driver && (KeepAlive in r.ack <==> LastWith(Received(t, w), SlotOf(KeepAlive)).Some?)
  {
    var e := d.(alive := false);
    var w := SendKeepAlive(e, CloseBudget, t);
    CommandAck(e, KeepAlive, CloseBudget, t);
    RaisedOnlyBySlot(Received(t, w), KeepAlive);
    w.driver
  }

  /* ---------------- link speed ---------------- */

  /**
   * `changeBaud`: on success the slot holds the baud rate the last
   * change-baud reply confirmed (the handler also retunes the port, which is
   * outside the model).
   */
  function ChangeBaudRate(d: Driver, baudRate: int, budget: real, t: Trace): (r: Reply<int>)
    requires ValidTrace(t, budget)
    ensures r.w == Command(d, ChangeBaud, budget, t)
    ensures !r.w.status.Satisfied? ==> r.out == baudRate
    ensures r.w.status.Satisfied? ==>
      && LastWith(Received(t, r.w), SlotOf(ChangeBaud)).Some?
      && r.out == LastWith(Received(t, r.w), SlotOf(ChangeBaud)).value.word
  {
    var w := Command(d, ChangeBaud, budget, t);
    CommandAck(d, ChangeBaud, budget, t);
    DispatchAllLink(Reset(d, ChangeBaud), Received(t, w));
    Reply(w, if w.status.Satisfied? then w.driver.baudRate else baudRate)
  }

  /* ---------------- lease renewal ---------------- */

  /** Lease the background thread asks for, in milliseconds. */
  const LeaseMs: nat := 10000

  /**
   * The thread's renewal test: elapsed seconds since the last keep-alive
   * against a third of the lease, where the lease in milliseconds is divided
   * by 3000 in unsigned integer arithmetic before the comparison.
   */
  function RenewalDue(elapsed: real, leaseMs: nat): (due: bool)
    // renewal never falls due before any time has passed
    ensures due ==> elapsed > 0.0
    // nor later than a third of the lease
    ensures elapsed > leaseMs as real / 3000.0 ==> due
  {
    TruncatedThird(leaseMs);
    elapsed > (leaseMs / 3000) as real
  }

  /** The truncated third never exceeds the exact third, and falls short of it by under a second. */
  lemma TruncatedThird(leaseMs: nat)
    ensures (leaseMs / 3000) as real <= leaseMs as real / 3000.0
    ensures leaseMs as real / 3000.0 < (leaseMs / 3000) as real + 1.0
  {
    var q, r := leaseMs / 3000, leaseMs % 3000;
    assert leaseMs == 3000 * q + r;
    assert leaseMs as real == 3000.0 * q as real + r as real;
  }

  /** Renewal is never later than a third of the lease. */
  lemma RenewalNeverLate(elapsed: real, leaseMs: nat)
    requires elapsed > leaseMs as real / 3000.0
    ensures RenewalDue(elapsed, leaseMs)
  {
    TruncatedThird(leaseMs);
  }

  /** Renewal is at most one second earlier than a third of the lease. */
  lemma RenewalAtMostOneSecondEarly(elapsed: real, leaseMs: nat)
    requires RenewalDue(elapsed, leaseMs)
    ensures elapsed > leaseMs as real / 3000.0 - 1.0
  {
    TruncatedThird(leaseMs);
  }

  /** With the thread's ten-second lease, renewal falls due after three seconds, not 3.33. */
  lemma DefaultLeaseRenewal(elapsed: real)
    ensures RenewalDue(elapsed, LeaseMs) <==> elapsed > 3.0
  {
  }

  /** A lease shorter than three seconds renews on every pass after any time at all. */
  lemma ShortLeaseRenewal(elapsed: real, leaseMs: nat)
    requires leaseMs < 3000
    ensures RenewalDue(elapsed, leaseMs) <==> elapsed > 0.0
  {
  }
}
