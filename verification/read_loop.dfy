/**
  The acquisition side of test.py: the module-level table `buff` of
  `bufflen` rows by NCHANNELS columns with its write index `buffidx`, and
  the `read` function that opens device 0, starts a stream and, on every
  pass of its loop, fetches a batch and copies the final scan slot of the
  transfer buffer into the table row at `buffidx`.

  The loop stops when another thread sets an event; here the environment
  instead supplies the driver results of every pass in `batches`, and the
  loop runs once per entry.
*/
module ReadLoop {
  import opened Wrappers
  import opened IUsbDaq
  import opened Ring

  /** `bufflen` in test.py. */
  const BUFFLEN: int := 1000

  /** The row a table of zeros starts with. */
  function ZeroRow<T>(zero: T): (r: seq<T>)
    ensures |r| == NCHANNELS && forall j :: 0 <= j < |r| ==> r[j] == zero
  {
    seq(NCHANNELS, _ => zero)
  }

  class ScanTable<T> {
    /** The table, one row per retained scan. */
    const buff: array2<T>
    /** The row the next scan is written to. */
    var buffidx: nat
    /** The rows the table started with. */
    ghost const init: seq<seq<T>>
    /** Every row appended so far, oldest first. */
    ghost var history: seq<seq<T>>
    /** The table's rows as values. */
    ghost var rows: seq<seq<T>>

    ghost predicate Valid()
      reads this, buff
    {
      buff.Length0 == BUFFLEN && buff.Length1 == NCHANNELS &&
      |init| == BUFFLEN &&
      rows == TableAfter(init, history) &&
      (forall i :: 0 <= i < |rows| ==> |rows[i]| == NCHANNELS) &&
      (forall k :: 0 <= k < |history| ==> |history[k]| == NCHANNELS) &&
      (forall i, j :: 0 <= i < BUFFLEN && 0 <= j < NCHANNELS ==> buff[i, j] == rows[i][j]) &&
      buffidx == |history| % BUFFLEN
    }

    /** The module state of test.py at import: a table of zeros and index 0. */
    constructor (zero: T)
      ensures Valid() && fresh(buff)
      ensures history == [] && buffidx == 0
      ensures init == seq(BUFFLEN, _ => ZeroRow(zero))
    {
      buff := new T[BUFFLEN, NCHANNELS]((_, _) => zero);
      buffidx := 0;
      init := seq(BUFFLEN, _ => ZeroRow(zero));
      history := [];
      rows := init;
    }

    /**
      One pass of the locked block in `read`: the row at `buffidx` is
      overwritten with `row`, every other row is left as it was, and the
      index advances by one modulo BUFFLEN.
    */
    method Append(row: seq<T>)
      requires Valid() && |row| == NCHANNELS
      modifies this, buff
      ensures Valid()
      ensures history == old(history) + [row]
      ensures rows == old(rows)[old(buffidx) := row]
      ensures buffidx == (old(buffidx) + 1) % BUFFLEN
      ensures forall i, j :: 0 <= i < BUFFLEN && 0 <= j < NCHANNELS ==>
        buff[i, j] == if i == old(buffidx) then row[j] else old(buff[i, j])
    {
      forall j | 0 <= j < NCHANNELS {
        buff[buffidx, j] := row[j];
      }
      SlotOfShift(|history|, 1, BUFFLEN);
      buffidx := (buffidx + 1) % BUFFLEN;
      ghost var h := history + [row];
      assert h[..|h| - 1] == history;
      history := h;
      rows := rows[|h[..|h| - 1]| % BUFFLEN := row];
    }
  }

  /**
    Read from `buffidx` onwards, wrapping round, the table holds the last
    BUFFLEN entries of its initial rows followed by every appended row, in
    the order they were appended.
  */
  lemma TableWindow<T>(t: ScanTable<T>)
    requires t.Valid()
    ensures t.buffidx <= |t.rows|
    ensures Rotate(t.rows, t.buffidx) == (t.init + t.history)[|t.history|..]
  {
    WindowFromIndex(t.init, t.history);
  }

  /** Once BUFFLEN rows have been appended, row i holds the most recent append whose number is i modulo BUFFLEN. */
  lemma TableHoldsLatest<T>(t: ScanTable<T>, k: nat)
    requires t.Valid()
    requires |t.history| >= BUFFLEN && |t.history| - BUFFLEN <= k < |t.history|
    ensures t.rows[k % BUFFLEN] == t.history[k]
  {
    LastRowsOnly(t.init, t.history, k);
  }

  /** `dev.buff[-NCHANNELS:]`: the last NCHANNELS values, which are the final scan slot of a batch. */
  function LastScan<T>(buf: seq<T>): (r: seq<T>)
    requires |buf| == BUFFSIZE
    ensures |r| == NCHANNELS
    ensures forall j :: 0 <= j < NCHANNELS ==> r[j] == buf[(ScansPerBatch() - 1) * NCHANNELS + j]
  {
    buf[BUFFSIZE - NCHANNELS..]
  }

  /** A batch that does not reach the final scan slot leaves the appended row as it was before the batch. */
  lemma ShortBatchRepeatsRow<T>(buf: seq<T>, w: seq<T>)
    requires |buf| == BUFFSIZE && |w| <= (ScansPerBatch() - 1) * NCHANNELS
    ensures LastScan(Overwrite(buf, w)) == LastScan(buf)
  {
  }

  /** A full batch appends the last scan the driver delivered. */
  lemma FullBatchAppendsLastScan<T>(buf: seq<T>, w: seq<T>)
    requires |buf| == BUFFSIZE && |w| == BUFFSIZE
    ensures LastScan(Overwrite(buf, w)) == w[(ScansPerBatch() - 1) * NCHANNELS..]
  {
  }

  /** What the driver does on one pass of the loop: its status, its scan count and what it writes. */
  datatype Batch<T> = Batch(status: int32, count: int32, written: seq<T>)

  predicate Fits<T>(batches: seq<Batch<T>>) {
    forall k :: 0 <= k < |batches| ==> |batches[k].written| <= BUFFSIZE
  }

  /** The number of leading passes whose AIGetScans call succeeds. */
  function Passing<T>(batches: seq<Batch<T>>): (n: nat)
    ensures n <= |batches|
    ensures forall k :: 0 <= k < n ==> batches[k].status == 0
    ensures n < |batches| ==> batches[n].status != 0
  {
    if batches == [] || batches[0].status != 0 then 0
    else 1 + Passing(batches[1..])
  }

  /** The transfer buffer after the given passes. */
  function BuffAfter<T>(buf0: seq<T>, batches: seq<Batch<T>>): (buf: seq<T>)
    requires |buf0| == BUFFSIZE && Fits(batches)
    ensures |buf| == BUFFSIZE
    decreases |batches|
  {
    if batches == [] then buf0
    else Overwrite(BuffAfter(buf0, batches[..|batches| - 1]), batches[|batches| - 1].written)
  }

  /** The rows appended by the given passes: one per pass, whatever count it reports. */
  function RowsRead<T>(buf0: seq<T>, batches: seq<Batch<T>>): (rows: seq<seq<T>>)
    requires |buf0| == BUFFSIZE && Fits(batches)
    ensures |rows| == |batches|
    ensures forall k :: 0 <= k < |rows| ==> |rows[k]| == NCHANNELS
    decreases |batches|
  {
    if batches == [] then []
    else RowsRead(buf0, batches[..|batches| - 1]) + [LastScan(BuffAfter(buf0, batches))]
  }

  /** The counts the driver reports have no effect on the rows appended. */
  lemma {:induction false} CountIgnored<T>(buf0: seq<T>, a: seq<Batch<T>>, b: seq<Batch<T>>)
    requires |buf0| == BUFFSIZE && Fits(a) && Fits(b) && |a| == |b|
    requires forall k :: 0 <= k < |a| ==> a[k].written == b[k].written
    ensures BuffAfter(buf0, a) == BuffAfter(buf0, b)
    ensures RowsRead(buf0, a) == RowsRead(buf0, b)
    decreases |a|
  {
    if a != [] {
      CountIgnored(buf0, a[..|a| - 1], b[..|b| - 1]);
    }
  }

  /**
    The session calls made to the driver on behalf of `read`, in order: those of its body,
    then the release that the device's `__del__` makes once `read` has
    returned or raised (the handle is Session(0) even after a failed open,
    since OpenDevice sets it before calling the driver).
  */
  function ReadCalls<T>(openStatus: int32, startStatus: int32, batches: seq<Batch<T>>): (t: seq<Call>)
    ensures |t| >= 2
    ensures t[0] == OpenDeviceCall(0)
    ensures t[|t| - 1] == ReleaseDeviceCall(Session(0))
    ensures forall k :: 0 < k < |t| - 1 ==> t[k].AIStartStreamCall? || t[k].AIGetScansCall? || t[k].AIStopStreamCall?
  {
    var dev := Session(0);
    var n := Passing(batches);
    [OpenDeviceCall(0)] +
    (if openStatus != 0 then [] else
     [AIStartStreamCall(dev, NCHANNELS, ScanRate(RATE))] +
     if startStatus != 0 then [] else
     seq(if n < |batches| then n + 1 else n, _ => AIGetScansCall(dev, ScansPerBatch(), 1000)) +
     if n < |batches| then [] else [AIStopStreamCall(dev)]) +
    [ReleaseDeviceCall(dev)]
  }

  /**
    How `read` ends: the first driver error raised, or the outcome of
    AIStopStream. It succeeds exactly when every driver call of its body does.
  */
  function ReadOutcome<T>(openStatus: int32, startStatus: int32, batches: seq<Batch<T>>, stopStatus: int32)
    : (r: Outcome<DaqError>)
    ensures r == Pass <==>
      openStatus == 0 && startStatus == 0 && Passing(batches) == |batches| && stopStatus == 0
    ensures r.Fail? ==> r.error.code != 0
  {
    var n := Passing(batches);
    if openStatus != 0 then Check(openStatus)
    else if startStatus != 0 then Check(startStatus)
    else if n < |batches| then Check(batches[n].status)
    else Check(stopStatus)
  }

  /**
    AIStopStream is called at most once, and only as the call just before
    the final release: exactly when the device opened, the stream started
    and every pass of the loop succeeded. An error inside the loop leaves
    the stream running until the release.
  */
  lemma StopStreamOnlyLast<T>(openStatus: int32, startStatus: int32, batches: seq<Batch<T>>)
    ensures var t := ReadCalls(openStatus, startStatus, batches);
      forall k :: 0 <= k < |t| - 2 ==> !t[k].AIStopStreamCall?
    ensures var t := ReadCalls(openStatus, startStatus, batches);
      t[|t| - 2].AIStopStreamCall? <==>
        openStatus == 0 && startStatus == 0 && Passing(batches) == |batches|
  {
  }

  /**
    The `while` loop of `read`: on each pass, fetches a batch (ignoring the
    count it reports) and appends the final scan slot of the transfer
    buffer to the table. A driver error ends the loop at once, leaving the
    rows appended so far.
  */
  method ReadScans<T>(dev: Daq<T>, table: ScanTable<T>, batches: seq<Batch<T>>)
    returns (r: Outcome<DaqError>)
    requires dev.Valid() && table.Valid() && Fits(batches)
    modifies dev, dev.buff, table, table.buff
    ensures dev.Valid() && table.Valid()
    ensures dev.dev == old(dev.dev)
    ensures dev.calls == old(dev.calls) +
      seq(if Passing(batches) < |batches| then Passing(batches) + 1 else Passing(batches),
          _ => AIGetScansCall(old(dev.dev), ScansPerBatch(), 1000))
    ensures table.history == old(table.history) + RowsRead(old(dev.buff[..]), batches[..Passing(batches)])
    ensures r == if Passing(batches) < |batches| then Check(batches[Passing(batches)].status) else Pass
    ensures dev.buff[..] == BuffAfter(old(dev.buff[..]),
      batches[..if Passing(batches) < |batches| then Passing(batches) + 1 else |batches|])
  {
    ghost var buf0 := dev.buff[..];
    var i := 0;
    while i < |batches|
      invariant 0 <= i <= |batches|
      invariant forall k :: 0 <= k < i ==> batches[k].status == 0
      invariant dev.Valid() && dev.dev == old(dev.dev)
      invariant dev.buff[..] == BuffAfter(buf0, batches[..i])
      invariant dev.calls == old(dev.calls) + seq(i, _ => AIGetScansCall(old(dev.dev), ScansPerBatch(), 1000))
      invariant table.Valid()
      invariant table.history == old(table.history) + RowsRead(buf0, batches[..i])
    {
      var got := dev.AIGetScans(batches[i].status, batches[i].count, batches[i].written);
      assert batches[..i + 1][..i] == batches[..i];
      if got.Err? {
        assert Passing(batches) == i;
        r := Fail(got.error);
        return;
      }
      table.Append(dev.buff[BUFFSIZE - NCHANNELS..]);
      i := i + 1;
    }
    assert batches[..i] == batches;
    r := Pass;
  }

  /**
    `read`: opens device 0, starts the stream at the default rate and runs
    the loop. A driver error raised anywhere ends `read` at once;
    AIStopStream runs only after the loop finishes normally. On every exit
    the local device is finalised, which releases it and swallows any error.
  */
  method Read<T>(table: ScanTable<T>, zero: T, openStatus: int32, startStatus: int32,
                 actualRate: int32, batches: seq<Batch<T>>, stopStatus: int32, releaseStatus: int32)
    returns (r: Outcome<DaqError>, warning: Option<RateWarning>, ghost trace: seq<Call>)
    requires table.Valid() && Fits(batches)
    modifies table, table.buff
    ensures table.Valid()
    ensures table.history == old(table.history) +
      if openStatus == 0 && startStatus == 0
      then RowsRead(Zeros(zero), batches[..Passing(batches)]) else []
    ensures trace == ReadCalls(openStatus, startStatus, batches)
    ensures r == ReadOutcome(openStatus, startStatus, batches, stopStatus)
    ensures warning ==
      if openStatus == 0 && startStatus == 0 && RateMismatch(RATE, actualRate)
      then Some(RateWarning(ScanRate(RATE), ActualScanRate(actualRate)))
      else None
  {
    var dev, openResult := Init(Some(0), zero, openStatus);
    warning := None;
    r := openResult;
    if r.Pass? {
      r, warning := dev.AIStartStream(startStatus, actualRate);
      if r.Pass? {
        r := ReadScans(dev, table, batches);
        if r.Pass? {
          r := dev.AIStopStream(stopStatus);
        }
      }
    }
    dev.Finalize(releaseStatus);
    trace := dev.calls;
  }
}
