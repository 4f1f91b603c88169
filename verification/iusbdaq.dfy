/**
  The `iUSBDAQ` session class of iUSBDAQ.py: the handle field `dev`, the
  transfer buffer `buff`, the status rule every driver call goes through,
  and the rate and batch arithmetic of the streaming calls.

  The driver itself is foreign code. Every value it produces (a status
  code, the rate it accepted, the number of scans it delivered, what it
  wrote into the transfer buffer) is a parameter of the method that calls
  it. Every session call made to it (open, release, reset, stream start
  and stop, batch request) is recorded in the ghost trace `calls`, with
  the arguments the model can see; the error-text lookup that follows a
  nonzero status is not recorded.
*/
module IUsbDaq {
  import opened Wrappers

  // Session constants (iUSBDAQ.py, lines 15-18).
  const RATE: int := 60
  const OVERSAMPLE: int := 3
  const NCHANNELS: int := 8
  const BUFFSIZE: int := 128

  /** The C `int` the driver returns and writes. */
  type int32 = x: int | -0x8000_0000 <= x < 0x8000_0000

  /** The `dev` field: null (`c_void_p()`), or the address of a fresh session struct for device `index`. */
  datatype Handle = Null | Session(index: int)

  /** A call into the driver, with the arguments the model can see. */
  datatype Call =
    | OpenDeviceCall(index: int)
    | ReleaseDeviceCall(dev: Handle)
    | ResetCall(dev: Handle)
    | AIStartStreamCall(dev: Handle, channels: int, scanRate: int)
    | AIStopStreamCall(dev: Handle)
    | AIGetScansCall(dev: Handle, nsamp: int, timeout: int)

  /** `iUSBDAQError`, raised with the driver's code (its text is not modelled). */
  datatype DaqError = DriverError(code: int32)

  /** The two lines printed when the accepted rate differs from the requested one. */
  datatype RateWarning = RateWarning(requested: int, got: int)

  /** The `errcheck` rule: a nonzero driver status raises, zero returns normally. */
  function Check(status: int32): (r: Outcome<DaqError>)
    ensures r == Pass <==> status == 0
    ensures r.Fail? ==> r.error.code == status
  {
    if status != 0 then Fail(DriverError(status)) else Pass
  }

  /** `sample_rate` in AIStartStream: always a whole number of samples per channel. */
  function SampleRate(rate: int): (r: int)
    ensures r % NCHANNELS == 0
  {
    rate * OVERSAMPLE * BUFFSIZE
  }

  /**
    `scan_rate` in AIStartStream: the sample rate divided among the channels.
    The division never truncates: the result is exactly 48 times the rate.
  */
  function ScanRate(rate: int): (r: int)
    ensures r == 48 * rate
    ensures r * NCHANNELS == SampleRate(rate)
  {
    SampleRate(rate) / NCHANNELS
  }

  /**
    `actual` in AIStartStream: the driver's accepted rate converted back with
    floor division. It equals the accepted rate divided by 48, rounded down,
    and so is in the units of `rate`, not of `scan_rate`.
  */
  function ActualScanRate(actualRate: int): (r: int)
    ensures r == actualRate / 48
    ensures 48 * r <= actualRate < 48 * r + 48
  {
    (actualRate * NCHANNELS) / (BUFFSIZE * OVERSAMPLE)
  }

  /**
    The condition under which AIStartStream prints its warning: the
    accepted rate divided by 48, rounded down, differs from `scan_rate`.
  */
  predicate RateMismatch(rate: int, actualRate: int)
    ensures RateMismatch(rate, actualRate) <==> actualRate / 48 != 48 * rate
  {
    ActualScanRate(actualRate) != ScanRate(rate)
  }

  /**
    The warning is silent exactly for the 48 accepted rates starting at
    2304 times the requested rate, that is for an accepted rate 48 times the
    `scan_rate` that was sent to the driver.
  */
  lemma MismatchWindow(rate: int, actualRate: int)
    ensures !RateMismatch(rate, actualRate) <==>
            48 * ScanRate(rate) <= actualRate < 48 * ScanRate(rate) + 48
  {
  }

  /** A driver that accepts exactly the `scan_rate` it was sent still triggers the warning, unless the rate is 0. */
  lemma ExactEchoWarns(rate: int)
    ensures RateMismatch(rate, ScanRate(rate)) <==> rate != 0
  {
  }

  /** With the default rate of 60 the driver is asked for 2880 scans per second. */
  lemma DefaultRate()
    ensures ScanRate(RATE) == 2880
    ensures RateMismatch(RATE, 2880)
    ensures !RateMismatch(RATE, 138240)
  {
  }

  /** `nsamp` in AIGetScans: a full batch of that many scans exactly fills the transfer buffer. */
  function ScansPerBatch(): (n: int)
    ensures n > 0 && n * NCHANNELS == BUFFSIZE
  {
    BUFFSIZE / NCHANNELS
  }

  /** The transfer buffer as allocated: BUFFSIZE zeros. */
  function Zeros<T>(zero: T): (s: seq<T>)
    ensures |s| == BUFFSIZE && forall i :: 0 <= i < |s| ==> s[i] == zero
  {
    seq(BUFFSIZE, _ => zero)
  }

  /** The transfer buffer after the driver wrote `w` at its start; the rest is left as it was. */
  function Overwrite<T>(buf: seq<T>, w: seq<T>): (r: seq<T>)
    requires |w| <= |buf|
    ensures |r| == |buf|
    ensures forall i :: 0 <= i < |w| ==> r[i] == w[i]
    ensures forall i :: |w| <= i < |buf| ==> r[i] == buf[i]
  {
    w + buf[|w|..]
  }

  class Daq<T> {
    /** The driver handle: null until a device is opened and after it is released. */
    var dev: Handle
    /** The transfer buffer the driver fills on each AIGetScans. */
    const buff: array<T>
    /** Every session call made to the driver through this object, oldest first. */
    ghost var calls: seq<Call>

    ghost predicate Valid()
      reads this
    {
      buff.Length == BUFFSIZE
    }

    /** `__init__(None)`: no device is opened and the handle is null. */
    constructor (zero: T)
      ensures Valid() && fresh(buff)
      ensures dev == Null && calls == []
      ensures buff[..] == Zeros(zero)
    {
      dev := Null;
      buff := new T[BUFFSIZE](_ => zero);
      calls := [];
    }

    /**
      OpenDevice: the handle is pointed at a fresh session for `index` before
      the driver is called, so it is set whether or not the open succeeds.
    */
    method OpenDevice(status: int32, index: int := 0) returns (r: Outcome<DaqError>)
      modifies this
      ensures dev == Session(index)
      ensures calls == old(calls) + [OpenDeviceCall(index)]
      ensures r == Check(status)
    {
      dev := Session(index);
      calls := calls + [OpenDeviceCall(index)];
      r := Check(status);
    }

    /**
      ReleaseDevice: the current handle is passed to the driver; it is
      cleared only when the driver reports success and is kept otherwise.
    */
    method ReleaseDevice(status: int32) returns (r: Outcome<DaqError>)
      modifies this
      ensures calls == old(calls) + [ReleaseDeviceCall(old(dev))]
      ensures r == Check(status)
      ensures dev == if status == 0 then Null else old(dev)
    {
      calls := calls + [ReleaseDeviceCall(dev)];
      r := Check(status);
      if r.Pass? {
        dev := Null;
      }
    }

    /** `__del__`: releases the device and swallows any error, so it never fails. */
    method Finalize(status: int32)
      modifies this
      ensures calls == old(calls) + [ReleaseDeviceCall(old(dev))]
      ensures dev == if status == 0 then Null else old(dev)
    {
      var _ := ReleaseDevice(status);
    }

    /** Reset: a checked driver call on the current handle. */
    method Reset(status: int32) returns (r: Outcome<DaqError>)
      modifies this
      ensures dev == old(dev)
      ensures calls == old(calls) + [ResetCall(dev)]
      ensures r == Check(status)
    {
      calls := calls + [ResetCall(dev)];
      r := Check(status);
    }

    /**
      AIStartStream: sends `scan_rate` to the driver. If the driver fails the
      error propagates before any comparison. Otherwise a rate mismatch only
      yields a warning: the call still succeeds and no field changes.
    */
    method AIStartStream(status: int32, actualRate: int32, rate: int := RATE)
      returns (r: Outcome<DaqError>, warning: Option<RateWarning>)
      modifies this
      ensures dev == old(dev)
      ensures calls == old(calls) + [AIStartStreamCall(dev, NCHANNELS, ScanRate(rate))]
      ensures r == Check(status)
      ensures warning ==
        if status == 0 && RateMismatch(rate, actualRate)
        then Some(RateWarning(ScanRate(rate), ActualScanRate(actualRate)))
        else None
    {
      var scanRate := SampleRate(rate) / NCHANNELS;
      calls := calls + [AIStartStreamCall(dev, NCHANNELS, scanRate)];
      r := Check(status);
      warning := None;
      if r.Pass? {
        var actual := (actualRate * NCHANNELS) / (BUFFSIZE * OVERSAMPLE);
        if actual != scanRate {
          warning := Some(RateWarning(scanRate, actual));
        }
      }
    }

    /** AIStopStream: a checked driver call on the current handle. */
    method AIStopStream(status: int32) returns (r: Outcome<DaqError>)
      modifies this
      ensures dev == old(dev)
      ensures calls == old(calls) + [AIStopStreamCall(dev)]
      ensures r == Check(status)
    {
      calls := calls + [AIStopStreamCall(dev)];
      r := Check(status);
    }

    /**
      AIGetScans: asks the driver for one batch of ScansPerBatch() scans.
      The driver writes `written` into the transfer buffer before its status
      is checked, so the buffer changes even when the call raises. On
      success the count the driver reports is returned unchanged.
    */
    method AIGetScans(status: int32, count: int32, written: seq<T>, timeout: int := 1000)
      returns (r: Result<int32, DaqError>)
      requires Valid() && |written| <= BUFFSIZE
      modifies this, buff
      ensures Valid()
      ensures dev == old(dev)
      ensures calls == old(calls) + [AIGetScansCall(dev, ScansPerBatch(), timeout)]
      ensures buff[..] == Overwrite(old(buff[..]), written)
      ensures r.Ok? <==> status == 0
      ensures r.Ok? ==> r.value == count
      ensures r.Err? ==> r.error == DriverError(status)
    {
      var nsamp := BUFFSIZE / NCHANNELS;
      calls := calls + [AIGetScansCall(dev, nsamp, timeout)];
      forall i | 0 <= i < |written| {
        buff[i] := written[i];
      }
      var c := Check(status);
      if c.Fail? {
        r := Err(c.error);
      } else {
        r := Ok(count);
      }
    }
  }

  /**
    `__init__`: with a device index, opens that device (and fails as
    OpenDevice does); without one, leaves the handle null. On success the
    transfer buffer starts as BUFFSIZE zeros. When opening fails, `__init__`
    stops before allocating the buffer; the model allocates it first, which
    no caller can observe because the object is never returned to it.
  */
  method Init<T>(index: Option<int>, zero: T, openStatus: int32)
    returns (d: Daq<T>, r: Outcome<DaqError>)
    ensures fresh(d) && fresh(d.buff) && d.Valid()
    ensures d.buff[..] == Zeros(zero)
    ensures index.None? ==> d.dev == Null && d.calls == [] && r == Pass
    ensures index.Some? ==>
      d.dev == Session(index.value) && d.calls == [OpenDeviceCall(index.value)] &&
      r == Check(openStatus)
  {
    d := new Daq(zero);
    r := Pass;
    if index.Some? {
      r := d.OpenDevice(openStatus, index.value);
    }
  }
}
