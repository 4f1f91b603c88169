# py-iusbdaq, modelled in Dafny

This project models the sequential core of a small Python 2 data-acquisition
program for the iUSBDAQ device. That program is a ctypes wrapper around a
closed driver DLL plus a script that streams samples into a circular table.
The model has four modules:

- `Wrappers` (wrappers.dfy): `Option`, `Outcome` and `Result`, used in place of Python exceptions.
- `IUsbDaq` (iusbdaq.dfy): the `iUSBDAQ` class of iUSBDAQ.py and its module constants
  `RATE = 60`, `OVERSAMPLE = 3`, `NCHANNELS = 8` and `BUFFSIZE = 128`. It covers the
  `errcheck` status rule, the handle field `dev` through `__init__`, `OpenDevice`,
  `ReleaseDevice` and `__del__`, the rate arithmetic and mismatch warning of
  `AIStartStream`, and the batch request of `AIGetScans`. The driver is foreign code,
  so each driver result is a method parameter: the status code, the accepted rate,
  the reported scan count, and the values written into the transfer buffer. Every
  session call to the driver (open, release, reset, stream start and stop, batch request)
  is recorded in the ghost trace `calls`, with the arguments listed under "## Left out".
- `Ring` (ring.dfy): the circular table of test.py as a value. `TableAfter(init, h)`
  is the table after appending the rows `h`. Its lemmas say which appended row each
  slot holds.
- `ReadLoop` (read_loop.dfy): test.py's module state (`buff`, `buffidx`,
  `bufflen = 1000`) as the class `ScanTable`, and its `read` function as `Read`. The
  loop body of `read` is the method `ReadScans`. The sample type is a type parameter
  instead of `float`, and the zeros the tables start with are a parameter `zero`.

Python 2 divides integers with floor division. For the positive divisors used
here (8, 384), that equals Dafny's `/`.

Behaviours the model makes explicit:

- `scan_rate` is exactly `48 * rate`. The value converted back from the driver,
  `actual`, is the accepted rate divided by 48, rounded down. Yet `actual` is
  compared with `scan_rate`. So the warning is silent only when the driver accepts
  a rate between `2304 * rate` and `2304 * rate + 47`. A driver that accepts exactly
  the requested `scan_rate` always triggers the warning, unless `rate` is 0
  (`ExactEchoWarns`).
- A warning never fails the call and never changes a field.
- `ReleaseDevice` clears `dev` only after the driver reports success. `__del__`
  swallows the error.
- `OpenDevice` sets `dev` before calling the driver, so the handle is set even when
  opening fails.
- `read` appends exactly one table row per pass whose `AIGetScans` succeeds, whatever count it reports.
  The row is always the final scan slot of the transfer buffer. If the driver writes at
  most 15 scans, from the start of the buffer, that slot still holds the previous
  batch's data, and the same row is appended again (`ShortBatchRepeatsRow`).
- A driver error inside the loop ends `read` without calling `AIStopStream`.
- `read`'s local device is finalised when `read` returns or raises. `dev` is a local that is in no reference cycle, so CPython's reference counting runs `__del__` at that point (on the error path, once the traceback is released). The release it makes is the last session call of `read`.

Where the code is less strict than one might expect, the model follows the code:

- The code keeps no session state besides `dev`. It checks none before streaming calls.
- `ReleaseDevice` raises on a nonzero status. Only `__del__` suppresses that error.
- One row is appended per batch, not one per scan retrieved.
- `AIStopStream` runs only after a normal loop exit.

## Model

| member | source | states |
|---|---|---|
| `IUsbDaq.Check` | iUSBDAQ.py:32-36 | a driver status passes exactly when it is 0; otherwise the error carries that status code |
| `IUsbDaq.SampleRate` | iUSBDAQ.py:104 | `sample_rate` is always a whole multiple of the channel count |
| `IUsbDaq.RateMismatch` | iUSBDAQ.py:111-113 | the warning condition: the accepted rate divided by 48, rounded down, differs from 48 times the requested rate |
| `IUsbDaq.ScanRate` | iUSBDAQ.py:103-105 | `scan_rate` is exactly 48 times the requested rate: dividing `sample_rate` by NCHANNELS never truncates |
| `IUsbDaq.ActualScanRate` | iUSBDAQ.py:111 | the back-converted rate is the driver's accepted rate divided by 48, rounded down |
| `IUsbDaq.MismatchWindow` | iUSBDAQ.py:111-113 | no warning exactly when the accepted rate lies in the 48 values starting at 48 times `scan_rate` |
| `IUsbDaq.ExactEchoWarns` | iUSBDAQ.py:104-113 | a driver that accepts exactly `scan_rate` triggers the warning if and only if the rate is nonzero |
| `IUsbDaq.DefaultRate` | iUSBDAQ.py:103-113 | with the default rate 60 the driver is asked for 2880; an echo of 2880 warns, an accepted 138240 does not |
| `IUsbDaq.ScansPerBatch` | iUSBDAQ.py:121 | `nsamp` is positive, and a full batch of `nsamp` scans fills the BUFFSIZE-value transfer buffer exactly |
| `IUsbDaq.Zeros` | iUSBDAQ.py:64 | the transfer buffer starts as BUFFSIZE zeros |
| `IUsbDaq.Overwrite` | iUSBDAQ.py:123-124 | the driver's write into the transfer buffer changes its first values only and keeps its length |
| `IUsbDaq.Daq.constructor` | iUSBDAQ.py:58-64 | without a device index the handle is null, no driver call is made and the buffer is all zeros |
| `IUsbDaq.Init` | iUSBDAQ.py:58-64 | with an index, the device is opened (handle set, one open call, outcome of its status); without one, the handle stays null |
| `IUsbDaq.Daq.OpenDevice` | iUSBDAQ.py:72-75 | the handle points at a session for the index whether or not the driver succeeds; the outcome is the status rule |
| `IUsbDaq.Daq.ReleaseDevice` | iUSBDAQ.py:77-79 | the driver gets the current handle; the handle becomes null only on success and is unchanged on failure |
| `IUsbDaq.Daq.Finalize` | iUSBDAQ.py:66-70 | `__del__` releases as ReleaseDevice does but returns no error |
| `IUsbDaq.Daq.Reset` | iUSBDAQ.py:81-82 | one reset call on the current handle; the outcome is the status rule; the handle is unchanged |
| `IUsbDaq.Daq.AIStartStream` | iUSBDAQ.py:103-115 | sends NCHANNELS and 48 times the rate; a driver error propagates with no warning; otherwise a mismatch yields a warning with both rates, the call succeeds and the handle is unchanged |
| `IUsbDaq.Daq.AIStopStream` | iUSBDAQ.py:117-118 | one stop call on the current handle; the outcome is the status rule |
| `IUsbDaq.Daq.AIGetScans` | iUSBDAQ.py:120-125 | requests ScansPerBatch() scans; the buffer takes the driver's writes even when the call fails; on success the driver's count is returned unchanged |
| `Ring.TableAfter` | test.py:20-21 | appending rows never changes the number of rows in the table |
| `Ring.SlotHolds` | test.py:20-21 | each of the last `bufflen` entries (initial rows first, then appended rows) is held in the slot given by its position modulo `bufflen` |
| `Ring.WindowFromIndex` | test.py:17-21 | read from the write index round to just before it, the table is the last `bufflen` entries in order of writing |
| `Ring.FillingPhase` | test.py:8-21 | after at most `bufflen` appends, the appended rows fill the first slots in order and the rest keep their initial rows |
| `Ring.LastRowsOnly` | test.py:20-21 | after `bufflen` or more appends, every slot holds one of the last `bufflen` appended rows, the one whose number matches the slot modulo `bufflen` |
| `ReadLoop.ZeroRow` | test.py:9 | a row of the initial table is NCHANNELS zeros |
| `ReadLoop.ScanTable.constructor` | test.py:8-10 | the table starts as `bufflen` rows of zeros, with index 0 and nothing appended |
| `ReadLoop.ScanTable.Append` | test.py:20-21 | only the row at `buffidx` is overwritten, with exactly the given row; the index advances by one modulo `bufflen` and stays the number of appends modulo `bufflen` |
| `ReadLoop.TableWindow` | test.py:17-21 | for any reachable table, rotating from `buffidx` gives the last `bufflen` rows in order of writing |
| `ReadLoop.TableHoldsLatest` | test.py:20-21 | once the table has wrapped, row `k mod bufflen` holds the k-th appended row for every one of the last `bufflen` appends |
| `ReadLoop.LastScan` | test.py:20 | `dev.buff[-NCHANNELS:]` has NCHANNELS values, and they are the final scan slot of a batch |
| `ReadLoop.ShortBatchRepeatsRow` | test.py:18-20 | a batch that does not reach the final scan slot appends the same row as before the batch |
| `ReadLoop.FullBatchAppendsLastScan` | test.py:18-20 | a full batch appends the last scan the driver wrote |
| `ReadLoop.Passing` | test.py:17-18 | the number of loop passes whose AIGetScans succeeds: all passes before it succeed, and the one at it fails |
| `ReadLoop.BuffAfter` | test.py:17-18 | the transfer buffer keeps its length across passes |
| `ReadLoop.RowsRead` | test.py:17-21 | the passes append one row of NCHANNELS values each |
| `ReadLoop.CountIgnored` | test.py:18-20 | the scan counts the driver reports do not affect the transfer buffer or the rows appended |
| `ReadLoop.ReadCalls` | test.py:14-23 | the session calls made for `read` start with opening device 0 (via `__init__` and OpenDevice, iUSBDAQ.py:58-60 and 72-75) and end with releasing Session(0) (via `__del__`, iUSBDAQ.py:66-70); every call between them is a stream start, a batch request or a stream stop |
| `ReadLoop.ReadOutcome` | test.py:14-23 | `read` succeeds exactly when the open, the stream start, every pass and the stream stop succeed; a failure carries a nonzero code |
| `ReadLoop.StopStreamOnlyLast` | test.py:17-23 | among the session calls, AIStopStream is called at most once, just before the final release. It is called exactly when opening, starting and every pass succeed |
| `ReadLoop.ReadScans` | test.py:17-21 | the loop makes one AIGetScans call per pass up to and including the first failing one. The transfer buffer ends with the writes of all those passes, including the failing one. The loop appends the final scan slot of each successful pass, and its outcome is that failure or success |
| `ReadLoop.Read` | test.py:12-23 | opens device 0 and starts the stream at the default rate. Its driver calls, outcome, rate warning and appended rows are those given by the passes that succeed. On every exit the local device is finalised, which releases it |

## Left out

- The ctypes layer is not modelled: `CDLL`, `__DLLFuncs.__getattr__`, `GetDLLVersion`, `EnumerateDev`, `GetDeviceSerialNo`, `GetFirmwareVersion`, `ReadIUSB_DEVID`, `VoltToBits` and `BitsToVolt`. Each is a foreign call whose behaviour is not visible.
- The error text that `iUSBDAQ_GetErrorDes` fills in is not modelled. An error carries only its status code.
- The trace omits the `iUSBDAQ_GetErrorDes` lookup that `check` makes after every nonzero status (iUSBDAQ.py:35). So "first" and "last" in the trace lemmas (`ReadCalls`, `StopStreamOnlyLast`) are about session calls only. For example, a failing release in `__del__` is followed by such a lookup.
- The `DevSession` structure and its address are not modelled. A handle is null or a session for a device index, and two sessions for the same index are not told apart.
- The driver's writes into the transfer buffer are modelled as a prefix of the buffer. Whether the driver writes at all on failure is left to that parameter.
- The trace does not record every driver argument: it omits the constant arguments `0`, `0` and `False` of the stream-start call and the leading `0` of the open call, whose meaning is defined by the driver.
- The conversion of `scan_rate` to a C `int` for the driver call is not modelled. It only matters for rates above about 44 million.
- A non-integer `rate`, which would make Python 2 divide without flooring, is not modelled.
- Threads, the `Lock` around the append, the stop `Event`, and the 30-second orchestration in test.py:53-68 are not modelled. The append is sequential, and the loop runs once for each entry of `batches`.
- `draw` in test.py:25-51 is not modelled: plotting and floating-point statistics. Its commented-out lines are dead code.
- test.py imports only the class (`from iUSBDAQ import iUSBDAQ`, test.py:1), yet it uses `NCHANNELS` at test.py:9 and test.py:20. As written, the script stops with a `NameError` at test.py:9, before `read` is defined. The model instead takes `NCHANNELS = 8` from iUSBDAQ.py:17, as the script evidently intends. That failure is not modelled.
- The sample values are not modelled: samples have a generic type instead of `float`.
