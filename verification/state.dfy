/**
 * The state a `smu::Driver` keeps: the acknowledgement flags, the identity
 * string, the last wire-confirmed field of every channel, the streaming
 * bookkeeping and the two sample queues.
 *
 * Floating-point payloads (currents, voltages, resistances, calibration
 * values) are kept as opaque integers. Range and terminal conversions
 * (`toCS_Range`, `toVM_Terminal`, ...) are taken to pass the wire word through.
 */
module State {
  import opened Codes

  /** An unsigned 16-bit quantity (`uint16_t`). */
  type u16 = x: int | 0 <= x < 0x1_0000

  /** One calibration table entry: the DAC/ADC code and the physical value it stands for. */
  datatype CalPoint = CalPoint(code: int, value: int)

  /** The value an entry holds before any frame has written it. */
  const Uncalibrated: CalPoint := CalPoint(0, 0)

  /**
   * What a channel holder remembers: whether it is the active source, its
   * range, its input terminal (voltmeter only), its calibration table and the
   * last commanded or measured scalar.
   */
  datatype Channel = Channel(
    active: bool,
    range: int,
    terminal: int,
    calibration: map<int, CalPoint>,
    level: int)
  {
    /** The entry stored at `index`, or `Uncalibrated` when none was received. */
    function CalibrationAt(index: int): CalPoint
    {
      if index in calibration then calibration[index] else Uncalibrated
    }
  }

  /**
   * One inbound frame as the codec presents it: the wire code selecting the
   * handler, and the payload fields some handler reads. A handler reads the
   * frame as the record type it expects, whatever code the frame carried.
   */
  datatype Frame = Frame(
    code: nat,            // position in the dispatch table
    word: int,            // range, terminal, source mode or baud rate
    index: int,           // calibration index or system-configuration parameter id
    raw: int,             // DAC/ADC code or system-configuration value
    reading: int,         // current, voltage or resistance
    identity: string,     // instrument name in an identity reply
    count: u16,           // number of samples waiting in the instrument
    samples: seq<int>,    // raw samples of a record-data reply
    at: real)             // timer reading when the frame was handled

  /** The driver record. */
  datatype Driver = Driver(
    ack: set<Code>,           // ackBits_
    identity: string,         // identity_
    cs: Channel,
    vs: Channel,
    cm: Channel,
    vm: Channel,
    vm2: Channel,
    resistance: int,          // resistance-meter reading
    sysconf: map<int, int>,   // system-configuration parameters by id
    baudRate: int,            // baudRate_
    recSize: u16,             // recSize_
    rec: bool,                // _rec: streaming enabled
    pollStreamAt: real,       // _poll_stream_at
    alive: bool,              // _alive: background thread requested to run
    dataq: seq<int>,          // _dataq: calibrated samples, oldest first
    dataq32: seq<int>)        // _dataq_32: raw samples, oldest first
  {
    function Chan(ch: ChannelId): Channel
    {
      match ch
      case Cs => cs
      case Vs => vs
      case Cm => cm
      case Vm => vm
      case Vm2 => vm2
    }

    function WithChan(ch: ChannelId, c: Channel): (d: Driver)
      ensures d.Chan(ch) == c
      ensures forall other :: other != ch ==> d.Chan(other) == Chan(other)
    {
      match ch
      case Cs => this.(cs := c)
      case Vs => this.(vs := c)
      case Cm => this.(cm := c)
      case Vm => this.(vm := c)
      case Vm2 => this.(vm2 := c)
    }

    /** The system-configuration parameter `id`, 0 when never received. */
    function Param(id: int): int
    {
      if id in sysconf then sysconf[id] else 0
    }
  }

  /** `applyCalibration`: a placeholder that passes the raw code through. */
  function ApplyCalibration(raw: int): int
  {
    raw
  }

  /** The calibrated image of a run of raw samples. */
  function Calibrated(raw: seq<int>): seq<int>
  {
    seq(|raw|, i requires 0 <= i < |raw| => ApplyCalibration(raw[i]))
  }

  /** Concatenation is associative. */
  lemma AppendAssoc<T>(a: seq<T>, b: seq<T>, c: seq<T>)
    ensures (a + b) + c == a + (b + c)
  {
  }

  /** Calibrating a concatenation calibrates each part. */
  lemma CalibratedAppend(a: seq<int>, b: seq<int>)
    ensures Calibrated(a + b) == Calibrated(a) + Calibrated(b)
  {
    assert |Calibrated(a + b)| == |Calibrated(a) + Calibrated(b)|;
    forall i | 0 <= i < |a + b|
      ensures Calibrated(a + b)[i] == (Calibrated(a) + Calibrated(b))[i]
    {
      if i < |a| {
        assert (a + b)[i] == a[i];
      } else {
        assert (a + b)[i] == b[i - |a|];
      }
    }
  }

  /**
   * The two sample queues move in lockstep: the calibrated queue is the
   * calibrated image of the raw queue, element by element.
   */
  predicate Lockstep(d: Driver)
  {
    d.dataq == Calibrated(d.dataq32)
  }
}
