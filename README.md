# SerialDeviceAdapter in Dafny

A model of `SerialDeviceAdapter`, the NModbus stream resource that puts a
blocking, timeout-guarded `Read`/`Write` interface over a UWP `SerialDevice`.
The device's input side is a `DataReader` that holds loaded but unconsumed
bytes. Its output side is a `DataWriter` that queues bytes until a store
hands them to the device.

The model has two parts:

- `adapter_spec.dfy`, module `AdapterSpec`: the value types and what one call
  does, written as pure functions. These are `ReadSpec`, `WriteSpec`,
  `InputStep` and `LoadRequest`. The module also runs a whole sequence of calls
  (`RunInput`, `RunOutput`) and proves lemmas about those runs.
- `serial_device_adapter.dfy`, module `NModbusSerial`: class
  `SerialDeviceAdapter`. Its fields are:
  - the two timeout fields;
  - the device's timeout settings, with a count of how many times the adapter set each;
  - the reader's unconsumed bytes and a log of the load sizes it was asked for;
  - the writer queue and the bytes stored so far.

  `Read` and `Write` are proved to do exactly what `ReadSpec` and `WriteSpec`
  say, and to change nothing else. The timeout setters, `ReadBytes` and
  `DiscardInBuffer` state their whole new state directly in their contracts.
  Two client methods at the end compose the calls for two scenarios: first
  timeout sets on a new adapter, and two 4-byte reads whose loads each bring
  at most the 4 bytes requested.

The asynchronous load or store that a call blocks on is an input parameter:

- `LoadOutcome`: the load completed with some bytes added to the reader, or it
  failed for any reason.
- `StoreOutcome`: the store completed, or it failed after handing some prefix of
  the queue to the device.

Behaviour as written, which the model follows. It differs from the usual
stream contract (copy at most `count` bytes to `buffer[offset..]` and return
how many were copied):

- `Read` asks for a load of `offset + count` bytes, computed in unchecked 32-bit
  arithmetic and cast to `uint` (`LoadRequest`).
- After a completed load with data present, `Read` drops `offset` bytes and then
  fills the whole buffer starting at index 0. It returns `buffer.Length`, and
  `count` plays no part in this.
- `Read` always issues a load, even when enough bytes are already buffered.
- Every failed load is reported as a timeout, whatever the cause. So is every
  failed store.
- `Write` queues the whole buffer. It ignores `offset` and `count`.
- Both timeout fields start at 0 and are never read from the device. A first set
  to 0 therefore does nothing, and the device keeps its own setting.
- Some exceptions escape the timeout handling:
  - `new CancellationTokenSource(ms)` throws for a timeout below -1, before
    anything is loaded or queued;
  - `new byte[offset]` throws for a negative offset;
  - `DataReader.ReadBytes` throws when fewer bytes are loaded than it is asked
    for.

  Each of these is a distinct `Fault`, not a precondition.

## Model

| member | source | states |
|---|---|---|
| `AdapterSpec.LoadRequest` | NModbus.Serial.UWP/SerialDeviceAdapter.cs:82 | the load size is `offset + count` when that sum is non-negative, and wraps to the sum plus 2^32 when it is negative |
| `AdapterSpec.ReadSpec` | NModbus.Serial.UWP/SerialDeviceAdapter.cs:71-109 | the reader loses exactly the consumed bytes and they come off its front; any fault leaves the caller's buffer as it was; a timeout below -1, which `new CancellationTokenSource(ReadTimeout)` at line 76 rejects (`ValidDelay`), fails before any load; a failed load of any kind is a `Timeout` that consumes nothing; a completed load with nothing buffered returns 0 and changes nothing; otherwise success holds exactly when `0 <= offset` and `offset + buffer.Length` bytes are available, and then `offset` bytes followed by the whole new buffer were consumed and `buffer.Length` is returned; a negative offset throws `NegativeSize` and consumes nothing; too few bytes throw `ReaderOutOfBounds`, and then the `offset` skipped bytes are gone when at least `offset` bytes were available and nothing is consumed otherwise |
| `AdapterSpec.WriteSpec` | NModbus.Serial.UWP/SerialDeviceAdapter.cs:112-141 | a timeout below -1, which `new CancellationTokenSource(WriteTimeout)` at line 117 rejects (`ValidDelay`), fails with `DelayOutOfRange` before anything is queued and changes nothing; with a valid timeout the whole buffer is queued, ignoring offset and count; stored bytes followed by the queue always equal the old ones followed by what was queued, and stored bytes only grow; success holds exactly when the timeout is valid and the store completed, and then the queue is empty and everything queued was stored in order; every failure after a valid timeout is a `Timeout` |
| `AdapterSpec.InputStep` | NModbus.Serial.UWP/SerialDeviceAdapter.cs:61-109 | one input call, a `DiscardInBuffer` (lines 61-64) or a `Read` (lines 71-109), preserves the reader's queue order; `DiscardInBuffer` consumes exactly what was buffered and leaves nothing |
| `AdapterSpec.InputIsFifo` | NModbus.Serial.UWP/SerialDeviceAdapter.cs:61-109 | over any run of `Read` and `DiscardInBuffer` calls, the first buffer contents followed by all arrivals equal everything consumed followed by what is left |
| `AdapterSpec.OutputIsFifo` | NModbus.Serial.UWP/SerialDeviceAdapter.cs:119-136 | over any run of `Write` calls with a valid timeout, stored bytes are never taken back, the queued bytes are the callers' whole buffers in order, and nothing is lost between queue and device |
| `AdapterSpec.StoredWritesDeliverAll` | NModbus.Serial.UWP/SerialDeviceAdapter.cs:123-124 | when every store in a non-empty run of writes completes, the queue ends empty and the device has received every buffer in order |
| `NModbusSerial.SerialDeviceAdapter.constructor` | NModbus.Serial.UWP/SerialDeviceAdapter.cs:52-59 | both timeout fields start at 0; the device keeps its own timeouts, which have never been set; the reader and writer start empty |
| `NModbusSerial.SerialDeviceAdapter.SetReadTimeout` | NModbus.Serial.UWP/SerialDeviceAdapter.cs:28-38 | setting the current value changes nothing, not even the device; a different value becomes the getter's value and reaches the device with exactly one set; the write timeout and all other state stay unchanged |
| `NModbusSerial.SerialDeviceAdapter.SetWriteTimeout` | NModbus.Serial.UWP/SerialDeviceAdapter.cs:40-50 | the same for the write timeout, which is independent of the read timeout |
| `NModbusSerial.SerialDeviceAdapter.ReadBytes` | NModbus.Serial.UWP/SerialDeviceAdapter.cs:104-105 | reading into an array of n bytes fills it with the first n unconsumed bytes and consumes exactly those, or fails and consumes nothing when fewer than n are loaded |
| `NModbusSerial.SerialDeviceAdapter.DiscardInBuffer` | NModbus.Serial.UWP/SerialDeviceAdapter.cs:61-64 | afterwards nothing is unconsumed and nothing else has changed |
| `NModbusSerial.SerialDeviceAdapter.Read` | NModbus.Serial.UWP/SerialDeviceAdapter.cs:71-110 | result, new buffer contents and new reader contents are those of `ReadSpec`; a load of `LoadRequest(offset, count)` is requested exactly when the timeout is valid; timeouts, device settings and writer are untouched |
| `NModbusSerial.SerialDeviceAdapter.Write` | NModbus.Serial.UWP/SerialDeviceAdapter.cs:112-141 | result, writer queue and stored bytes are those of `WriteSpec`; timeouts, device settings and reader are untouched |
| `NModbusSerial.FirstTimeoutSets` | NModbus.Serial.UWP/SerialDeviceAdapter.cs:22-59 | on a new adapter, setting a timeout to 0 never reaches the device, so the device keeps its own value; setting a non-zero value reaches the device exactly once, and setting the same read timeout again does not reach it a second time |
| `NModbusSerial.TwoReadsOfFour` | NModbus.Serial.UWP/SerialDeviceAdapter.cs:82-108 | with a read timeout of 200, two 4-byte reads at offset 0 into a 4-byte buffer each request a load of 4; when the first load brings 4 bytes the first read returns exactly them; for every second load of at most 4 bytes, a failed load is a `Timeout` that leaves the buffer as it was, an empty load returns 0, a short load throws `ReaderOutOfBounds` and leaves its bytes in the reader, and a full load returns 4 with exactly those bytes and an empty reader |

## Left out

- The asynchronous bridge is not modelled: `Task.Run`, `ManualResetEventSlim`, `CancellationTokenSource` and the deadline timing. Concurrency and wall-clock time become the outcome parameters. In particular, the timeout value does not constrain the outcome. A timeout of 0, which cancels the token at once, is still allowed to load.
- `AdapterSpec.ReadSpec` and `NModbusSerial.SerialDeviceAdapter.Read` accept a completed load of any size. On a reader in partial mode, `DataReader.LoadAsync(n)` loads at most `n` bytes, but that is library behaviour not visible here. The bound is stated as `AdapterSpec.WithinRequest` and assumed only by `TwoReadsOfFour`; with larger loads the model lets a `Read` leave extra bytes in the reader that the device would not yet have delivered.
- An abandoned load that completes after its `Read` has already reported a timeout is not modelled. Such a load may still add bytes to the reader in the background.
- Likewise, a store abandoned by a `Write` that reported a timeout is not modelled. It may go on delivering the rest of the queue in the background, while `WriteSpec` keeps those bytes in the writer queue until the next `Write`.
- `TimeSpan.FromMilliseconds` and the meaning of `Timeout.Infinite` are not modelled. They are foreign conversions. The device fields record only the integer milliseconds pushed to them.
- `Dispose` is left out. It is a single foreign call, and nothing is stated about calling it twice.
- The `Debug.Assert` on a null device, and null `buffer` arguments, are left out, because the model's references are non-null.
- `SerialDeviceAdapter.ReadBytes` assumes that a throwing `DataReader.ReadBytes` consumes nothing and writes nothing into its array. The library's behaviour here is not visible. Both a failed offset skip and a failed buffer fill in `Read` rely on this: the first keeps every loaded byte in the reader, the second keeps the caller's buffer as it was.
- `AdapterSpec.WriteSpec` assumes that a failed store keeps the undelivered rest of the queue in the writer. How many bytes were delivered is left open. The library's behaviour after a cancelled store is not visible.
- `Read` returns `buffer.Length` as an unbounded natural number. The 32-bit limit on .NET array lengths is not modelled.
- The sample application (`SampleUwp/MainPage.xaml.cs`) is not part of this model: device enumeration, line settings, UI handlers and the Modbus master calls.
- The device's out-of-band error notifications are not part of this model.
