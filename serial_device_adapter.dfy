/** The UWP SerialDevice adapter: an object holding its two timeouts, the
    device's own timeout settings, the DataReader's loaded but unconsumed
    bytes and the DataWriter's queue. The asynchronous load or store that a
    Read or Write waits for is passed in as its outcome. */
module NModbusSerial {
  import opened AdapterSpec

  class SerialDeviceAdapter {
    // the adapter's own fields
    var readTimeout: int32
    var writeTimeout: int32
    // the SerialDevice's timeout settings in milliseconds, and how often the adapter set each
    var devReadTimeout: int
    var devWriteTimeout: int
    var devReadTimeoutSets: nat
    var devWriteTimeoutSets: nat
    // the DataReader: loaded but unconsumed bytes, and the sizes of the loads requested from it
    var unconsumed: seq<byte>
    var loadRequests: seq<uint32>
    // the DataWriter's queue, and every byte stored to the device so far
    var pending: seq<byte>
    var sent: seq<byte>

    /** Wraps a device whose timeouts are currently `deviceReadTimeout` and
        `deviceWriteTimeout`; the adapter does not read them, so its own
        fields start at 0. The reader and writer are new and empty. */
    constructor (deviceReadTimeout: int, deviceWriteTimeout: int)
      ensures readTimeout == 0 && writeTimeout == 0
      ensures devReadTimeout == deviceReadTimeout && devWriteTimeout == deviceWriteTimeout
      ensures devReadTimeoutSets == 0 && devWriteTimeoutSets == 0
      ensures unconsumed == [] && loadRequests == [] && pending == [] && sent == []
    {
      readTimeout, writeTimeout := 0, 0;
      devReadTimeout, devWriteTimeout := deviceReadTimeout, deviceWriteTimeout;
      devReadTimeoutSets, devWriteTimeoutSets := 0, 0;
      unconsumed, loadRequests := [], [];
      pending, sent := [], [];
    }

    /** The ReadTimeout setter: a value equal to the current one changes
        nothing; any other value is kept and pushed to the device. */
    method SetReadTimeout(value: int32)
      modifies this
      ensures readTimeout == value
      ensures old(readTimeout) == value ==>
                devReadTimeout == old(devReadTimeout) && devReadTimeoutSets == old(devReadTimeoutSets)
      ensures old(readTimeout) != value ==>
                devReadTimeout == value as int && devReadTimeoutSets == old(devReadTimeoutSets) + 1
      ensures writeTimeout == old(writeTimeout) && devWriteTimeout == old(devWriteTimeout)
      ensures devWriteTimeoutSets == old(devWriteTimeoutSets)
      ensures unconsumed == old(unconsumed) && loadRequests == old(loadRequests)
      ensures pending == old(pending) && sent == old(sent)
    {
      if readTimeout == value {
        return;
      }
      readTimeout := value;
      devReadTimeout := readTimeout as int;
      devReadTimeoutSets := devReadTimeoutSets + 1;
    }

    /** The WriteTimeout setter, the mirror image of SetReadTimeout. */
    method SetWriteTimeout(value: int32)
      modifies this
      ensures writeTimeout == value
      ensures old(writeTimeout) == value ==>
                devWriteTimeout == old(devWriteTimeout) && devWriteTimeoutSets == old(devWriteTimeoutSets)
      ensures old(writeTimeout) != value ==>
                devWriteTimeout == value as int && devWriteTimeoutSets == old(devWriteTimeoutSets) + 1
      ensures readTimeout == old(readTimeout) && devReadTimeout == old(devReadTimeout)
      ensures devReadTimeoutSets == old(devReadTimeoutSets)
      ensures unconsumed == old(unconsumed) && loadRequests == old(loadRequests)
      ensures pending == old(pending) && sent == old(sent)
    {
      if value == writeTimeout {
        return;
      }
      writeTimeout := value;
      devWriteTimeout := writeTimeout as int;
      devWriteTimeoutSets := devWriteTimeoutSets + 1;
    }

    /** DataReader.ReadBytes(dest): fills all of dest from the front of the
        unconsumed bytes and consumes them, or, when fewer are loaded, throws
        and consumes nothing. */
    method ReadBytes(dest: array<byte>) returns (ok: bool)
      modifies this`unconsumed, dest
      ensures ok == (dest.Length <= |old(unconsumed)|)
      ensures ok ==> dest[..] == old(unconsumed)[..dest.Length] && unconsumed == old(unconsumed)[dest.Length..]
      ensures !ok ==> dest[..] == old(dest[..]) && unconsumed == old(unconsumed)
    {
      if |unconsumed| < dest.Length {
        return false;
      }
      forall i | 0 <= i < dest.Length {
        dest[i] := unconsumed[i];
      }
      unconsumed := unconsumed[dest.Length..];
      ok := true;
    }

    /** Drops every loaded byte: reads an array as long as the unconsumed
        count, which always succeeds. */
    method DiscardInBuffer()
      modifies this
      ensures unconsumed == []
      ensures readTimeout == old(readTimeout) && writeTimeout == old(writeTimeout)
      ensures devReadTimeout == old(devReadTimeout) && devWriteTimeout == old(devWriteTimeout)
      ensures devReadTimeoutSets == old(devReadTimeoutSets) && devWriteTimeoutSets == old(devWriteTimeoutSets)
      ensures loadRequests == old(loadRequests) && pending == old(pending) && sent == old(sent)
    {
      var junk := new byte[|unconsumed|];
      var ok := ReadBytes(junk);
    }

    /** Read(buffer, offset, count): asks the reader to load offset + count
        bytes and, once the load completed, skips `offset` bytes and fills
        the whole buffer from index 0. */
    method Read(buffer: array<byte>, offset: int32, count: int32, load: LoadOutcome) returns (r: ReadResult)
      modifies this, buffer
      ensures var s := ReadSpec(old(readTimeout), old(unconsumed), load, old(buffer[..]), offset);
              r == s.result && buffer[..] == s.buffer && unconsumed == s.unconsumed
      ensures loadRequests == if ValidDelay(old(readTimeout))
                              then old(loadRequests) + [LoadRequest(offset, count)]
                              else old(loadRequests)
      ensures readTimeout == old(readTimeout) && writeTimeout == old(writeTimeout)
      ensures devReadTimeout == old(devReadTimeout) && devWriteTimeout == old(devWriteTimeout)
      ensures devReadTimeoutSets == old(devReadTimeoutSets) && devWriteTimeoutSets == old(devWriteTimeoutSets)
      ensures pending == old(pending) && sent == old(sent)
    {
      if !ValidDelay(readTimeout) {
        // new CancellationTokenSource(ReadTimeout) throws
        return ReadThrew(DelayOutOfRange);
      }
      var timeout := false;
      loadRequests := loadRequests + [LoadRequest(offset, count)];
      match load {
        case Loaded(bytes) =>
          unconsumed := unconsumed + bytes;
        case LoadFailed =>
          timeout := true;
      }
      if timeout {
        return ReadThrew(Timeout);
      }
      var result: nat := 0;
      if |unconsumed| > 0 {
        if offset < 0 {
          return ReadThrew(NegativeSize);
        }
        var skip := new byte[offset as int];
        var ok := ReadBytes(skip);
        if !ok {
          return ReadThrew(ReaderOutOfBounds);
        }
        ok := ReadBytes(buffer);
        if !ok {
          return ReadThrew(ReaderOutOfBounds);
        }
        result := buffer.Length;
      }
      return Returned(result);
    }

    /** Write(buffer, offset, count): queues the whole buffer on the writer
        and stores the queue; offset and count are not used. */
    method Write(buffer: array<byte>, offset: int32, count: int32, store: StoreOutcome) returns (r: WriteResult)
      modifies this
      ensures var s := WriteSpec(old(writeTimeout), old(pending), old(sent), buffer[..], store);
              r == s.result && pending == s.pending && sent == s.sent
      ensures readTimeout == old(readTimeout) && writeTimeout == old(writeTimeout)
      ensures devReadTimeout == old(devReadTimeout) && devWriteTimeout == old(devWriteTimeout)
      ensures devReadTimeoutSets == old(devReadTimeoutSets) && devWriteTimeoutSets == old(devWriteTimeoutSets)
      ensures unconsumed == old(unconsumed) && loadRequests == old(loadRequests)
    {
      if !ValidDelay(writeTimeout) {
        // new CancellationTokenSource(WriteTimeout) throws
        return WriteThrew(DelayOutOfRange);
      }
      var timeout := false;
      pending := pending + buffer[..];
      match store {
        case Stored =>
          sent := sent + pending;
          pending := [];
        case StoreFailed(delivered) =>
          var k := Min(delivered, |pending|);
          sent := sent + pending[..k];
          pending := pending[k..];
          timeout := true;
      }
      if timeout {
        return WriteThrew(Timeout);
      }
      return Completed;
    }
  }

  /** Both timeouts start at 0 without asking the device, so setting either
      to 0 on a new adapter is swallowed and the device keeps its own
      settings; setting a different value reaches the device. */
  method FirstTimeoutSets(deviceRead: int, deviceWrite: int, readMs: int32, writeMs: int32)
    returns (devRead: int, devWrite: int, readSets: nat, writeSets: nat)
    ensures readMs == 0 ==> devRead == deviceRead && readSets == 0
    ensures readMs != 0 ==> devRead == readMs as int && readSets == 1
    ensures writeMs == 0 ==> devWrite == deviceWrite && writeSets == 0
    ensures writeMs != 0 ==> devWrite == writeMs as int && writeSets == 1
  {
    var adapter := new SerialDeviceAdapter(deviceRead, deviceWrite);
    adapter.SetReadTimeout(readMs);
    adapter.SetWriteTimeout(writeMs);
    adapter.SetReadTimeout(readMs);
    devRead, devWrite := adapter.devReadTimeout, adapter.devWriteTimeout;
    readSets, writeSets := adapter.devReadTimeoutSets, adapter.devWriteTimeoutSets;
  }

  /** Two reads of four bytes at offset 0 into a 4-byte buffer, where each
      load brings at most the 4 bytes it asks for. The first load brings
      `firstHalf`; whatever the second load does, the second read fails,
      returns nothing or returns exactly what that load brought, because
      nothing is left over from the first; a short load stays in the reader. */
  method TwoReadsOfFour(firstHalf: seq<byte>, secondLoad: LoadOutcome)
    returns (first: ReadResult, second: ReadResult, got1: seq<byte>, got2: seq<byte>,
             requests: seq<uint32>, left: seq<byte>)
    requires |firstHalf| == 4
    requires WithinRequest(4, secondLoad)
    ensures first == Returned(4) && got1 == firstHalf
    ensures requests == [4, 4]
    ensures secondLoad == LoadFailed ==> second == ReadThrew(Timeout) && got2 == firstHalf && left == []
    ensures secondLoad == Loaded([]) ==> second == Returned(0) && got2 == firstHalf && left == []
    ensures secondLoad.Loaded? && 0 < |secondLoad.bytes| < 4 ==>
              second == ReadThrew(ReaderOutOfBounds) && got2 == firstHalf && left == secondLoad.bytes
    ensures secondLoad.Loaded? && |secondLoad.bytes| == 4 ==>
              second == Returned(4) && got2 == secondLoad.bytes && left == []
  {
    var adapter := new SerialDeviceAdapter(InfiniteTimeout as int, InfiniteTimeout as int);
    adapter.SetReadTimeout(200);
    var buffer := new byte[4];
    first := adapter.Read(buffer, 0, 4, Loaded(firstHalf));
    got1 := buffer[..];
    second := adapter.Read(buffer, 0, 4, secondLoad);
    got2 := buffer[..];
    requests := adapter.loadRequests;
    left := adapter.unconsumed;
  }
}
