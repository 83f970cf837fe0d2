/** The read loop of a stream connection, with the framer and its buffer in place. */
module StreamReader {
  import opened Bytes
  import opened Framing
  import opened FramingStream

  /** The inner loop of `serve_stream`: decode until the framer asks for more. */
  method EmitBuffered(framer: Framer, buffer: Buffer, eof: bool) returns (events: seq<Event>, closed: bool)
    modifies framer, buffer
    ensures Drained(events, closed, framer.State(), buffer.data)
            == Drain(framer.maxLength, eof, old(framer.State()), old(buffer.data))
  {
    hide DecodeTurn;
    events, closed := [], false;
    ghost var whole := Drain(framer.maxLength, eof, framer.State(), buffer.data);
    while true
      invariant var d := Drain(framer.maxLength, eof, framer.State(), buffer.data);
                whole == d.(events := events + d.events)
      decreases |buffer.data|, if framer.lineSkipping then 0 else 1
    {
      var decoded;
      if eof {
        decoded := framer.DecodeEof(buffer);
      } else {
        decoded := framer.Decode(buffer);
      }
      ghost var rest := Drain(framer.maxLength, eof, framer.State(), buffer.data).events;
      assert forall e: Event :: (events + [e]) + rest == events + ([e] + rest);
      match decoded
      case Frame(body) => events := events + [Emit(body)];
      case More => return;
      case Rejected(error) =>
        events := events + [Reject(error)];
        if error.fatal {
          closed := true;
          return;
        }
      case Panic =>
        // The task unwinds.
        return events + [Crash], true;
    }
  }

  /** The outer loop of `serve_stream` over the reads a socket delivers before its end:
      it computes exactly the run the stream properties speak of. */
  method ServeReads(chunks: seq<bytes>, maxLength: nat)
    returns (events: seq<Event>, leftover: bytes, unread: seq<bytes>)
    ensures Finished(events, leftover, unread) == Run(maxLength, FRESH, [], chunks)
  {
    hide Drain;
    var framer := new Framer(maxLength);
    var buffer := new Buffer([]);
    var used, eof := 0, false;
    events := [];
    ghost var whole := Run(maxLength, FRESH, [], chunks);
    while true
      invariant framer.maxLength == maxLength && used <= |chunks|
      invariant eof ==> used == |chunks|
      invariant !eof ==> var r := Run(maxLength, framer.State(), buffer.data, chunks[used..]);
                         whole == r.(events := events + r.events)
      invariant eof ==> var d := Drain(maxLength, true, framer.State(), buffer.data);
                        whole == Finished(events + d.events, d.buffer, [])
      decreases |chunks| - used, if eof then 0 else 1
    {
      var emitted, closed := EmitBuffered(framer, buffer, eof);
      assert forall more: seq<Event> :: (events + emitted) + more == events + (emitted + more);
      events := events + emitted;
      if closed || eof {
        return events, buffer.data, chunks[used..];
      }
      if used == |chunks| {
        eof := true;
      } else {
        assert chunks[used..][1..] == chunks[used + 1..];
        buffer.Put(chunks[used]);
        used := used + 1;
      }
    }
  }
}
