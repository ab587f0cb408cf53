/** The demultiplexer of index.js: named writes and closes appended to one main
    stream, and iterators that filter it by name. */
module Demux {
  import opened Common
  import opened DemuxLogic

  class StreamDemux {
    /** `_mainStream`, as the sequence of entries appended to it so far. */
    var mainStream: seq<Entry>

    constructor ()
      ensures mainStream == []
    {
      mainStream := [];
    }

    /** `_write(name, value, done)`: one packet `{name, data: {value, done}}`. */
    method WritePacket(name: Name, value: Datum, done: bool)
      modifies this
      ensures mainStream == old(mainStream) + [Packet(NamedPacket(name, Item(value, done)))]
    {
      mainStream := mainStream + [Packet(NamedPacket(name, Item(value, done)))];
    }

    method Write(name: Name, value: Datum)
      modifies this
      ensures mainStream == old(mainStream) + [Packet(NamedPacket(name, Item(value, false)))]
      ensures forall other :: other != name ==> Deliveries(mainStream, other) == Deliveries(old(mainStream), other)
      ensures Deliveries(mainStream, name) == Deliveries(old(mainStream), name) + [Data(Item(value, false))]
    {
      WritePacket(name, value, false);
      forall other | other != name
        ensures Deliveries(mainStream, other) == Deliveries(old(mainStream), other)
      {
        DeliveriesAppend(old(mainStream), Packet(NamedPacket(name, Item(value, false))), other);
      }
      DeliveriesAppend(old(mainStream), Packet(NamedPacket(name, Item(value, false))), name);
    }

    /** `close(name)`: a terminal packet for one name; the main stream stays open. */
    method Close(name: Name)
      modifies this
      ensures mainStream == old(mainStream) + [Packet(NamedPacket(name, Item(Undefined, true)))]
      ensures forall other :: other != name ==> Deliveries(mainStream, other) == Deliveries(old(mainStream), other)
      ensures Deliveries(mainStream, name) == Deliveries(old(mainStream), name) + [Data(Item(Undefined, true))]
    {
      WritePacket(name, Undefined, true);
      forall other | other != name
        ensures Deliveries(mainStream, other) == Deliveries(old(mainStream), other)
      {
        CloseLeavesOtherNames(old(mainStream), name, other);
      }
      DeliveriesAppend(old(mainStream), Packet(NamedPacket(name, Item(Undefined, true))), name);
    }

    /** `closeAll()`: close the main stream itself. */
    method CloseAll()
      modifies this
      ensures mainStream == old(mainStream) + [End]
      ensures forall name :: Deliveries(mainStream, name) == Deliveries(old(mainStream), name) + [EndOfStream]
    {
      mainStream := mainStream + [End];
      forall name
        ensures Deliveries(mainStream, name) == Deliveries(old(mainStream), name) + [EndOfStream]
      {
        CloseAllEndsEveryName(old(mainStream), name);
      }
    }

    /** `createAsyncIterator(name, timeout)`: a filtered iterator whose main-stream
        iterator starts at the current end of the main stream. */
    method CreateAsyncIterator(name: Name, timeout: TimeoutArg) returns (it: FilteredIterator)
      ensures fresh(it)
      ensures it.demux == this && it.name == name && it.timeout == timeout
      ensures it.pos == |mainStream| && it.Valid()
    {
      it := new FilteredIterator(this, name, timeout);
    }

    /** `stream(name)`: a handle bound to the name. */
    method Stream(name: Name) returns (h: DemuxedAsyncIterableStream)
      ensures fresh(h) && h.demux == this && h.name == name
    {
      h := new DemuxedAsyncIterableStream(this, name);
    }
  }

  /** The object `createAsyncIterator` returns; `pos` is the position of its
      main-stream iterator. */
  class FilteredIterator {
    const demux: StreamDemux
    const name: Name
    const timeout: TimeoutArg
    var pos: nat

    ghost predicate Valid()
      reads this, demux
    {
      pos <= |demux.mainStream|
    }

    constructor (demux: StreamDemux, name: Name, timeout: TimeoutArg)
      ensures this.demux == demux && this.name == name && this.timeout == timeout
      ensures pos == |demux.mainStream| && Valid()
    {
      this.demux := demux;
      this.name := name;
      this.timeout := timeout;
      pos := |demux.mainStream|;
    }

    /** The filtered `next`: pull entries until one carries the name or ends
        the main stream; wait (Pending) when the main stream has nothing more. */
    method Next() returns (r: FilterResult)
      requires Valid()
      modifies this
      ensures Valid()
      ensures (r, pos) == Scan(demux.mainStream, old(pos), name)
    {
      ghost var start := pos;
      while pos < |demux.mainStream|
        invariant start <= pos <= |demux.mainStream|
        invariant Scan(demux.mainStream, start, name) == Scan(demux.mainStream, pos, name)
        decreases |demux.mainStream| - pos
      {
        var entry := demux.mainStream[pos];
        pos := pos + 1;
        if entry.End? {
          return EndOfStream;
        }
        if entry.packet.name == name {
          return Data(entry.packet.data);
        }
      }
      r := Pending;
    }
  }

  /** The handle `stream(name)` returns. */
  class DemuxedAsyncIterableStream {
    const demux: StreamDemux
    const name: Name

    constructor (demux: StreamDemux, name: Name)
      ensures this.demux == demux && this.name == name
    {
      this.demux := demux;
      this.name := name;
    }

    /** Delegates to the demultiplexer with the bound name. */
    method CreateAsyncIterator(timeout: TimeoutArg) returns (it: FilteredIterator)
      ensures fresh(it)
      ensures it.demux == demux && it.name == name && it.timeout == timeout
      ensures it.pos == |demux.mainStream| && it.Valid()
    {
      it := demux.CreateAsyncIterator(name, timeout);
    }
  }
}
