/** From raw socket bytes to framed messages, inside the running system: what a
    connection has decoded is what the whole-stream reference says of the bytes it
    read, and of every way the stream may go on. */
module StreamDelivery {
  import opened Bytes
  import opened Framing
  import opened FramingStream
  import opened Delivery
  import Safety

  /** The bytes after the PROXY header. */
  function Payload(c: Conn): bytes {
    if |c.header| <= |c.received| then c.received[|c.header|..] else []
  }

  predicate Started(c: Conn) {
    !c.courier.NotStarted?
  }

  predicate Panicked(r: Reader) {
    r.Unwinding? || r.Crashed?
  }

  /** Reader past its loop. */
  predicate Departed(r: Reader) {
    r.Leaving? || r.Joining? || r.Closing? || r.CountingClosed? || r.Ending? || r.Gone? || Panicked(r)
  }

  /** The header is the one `parse` finds in front of everything read, and the peer is
      the one it names, or the transport's own. More bytes are awaited only for a header
      that is not all there. */
  predicate HeaderOk(cfg: Config, c: Conn) {
    && |c.header| <= |c.received|
    && (c.reader.HeaderParse? || c.reader.HeaderRead? ==> !Started(c) && cfg.proxyProtocol)
    && (c.reader.HeaderRead? ==> Proxy.Parse(c.received, Proxy.MAX_PROXY_HEADER_BYTES).Incomplete?)
    && if !Started(c) then
         && c.header == [] && c.buffer == c.received && c.decoded == [] && c.framer == FRESH
         && c.fate == Following && !c.eof && (c.reader.HeaderParse? || c.reader.HeaderRead? || Departed(c.reader))
       else if cfg.proxyProtocol then
         var parsed := Proxy.Parse(c.received, Proxy.MAX_PROXY_HEADER_BYTES);
         && parsed.Complete? && parsed.length == |c.header|
         && c.peer == if parsed.source.Some? then parsed.source else c.ownPeer
       else c.header == [] && c.peer == c.ownPeer
  }

  /** Where the framer stands while it follows the stream. A reader panics only behind a
      skipped line. */
  predicate PositionOk(max: nat, c: Conn) {
    && (c.reader.Reading? ==> !c.eof)
    && (c.fate.Broken? ==> Departed(c.reader))
    && (Panicked(c.reader) ==> c.fate.Skipped?)
    && (c.fate.Following? ==>
          && InStep(max, c.framer, c.buffer)
          && (c.reader.Reading? || (c.eof && !Departed(c.reader)) ==> Waiting(max, c.framer, c.buffer))
          && (c.eof && Departed(c.reader) ==> SpecFrom(max, c.framer, c.buffer) == QUIET))
  }

  /** What has been decoded agrees with the reference if the stream goes on with `t`. */
  ghost predicate TellsFuture(max: nat, c: Conn, t: bytes) {
    var spec := StreamSpec(max, Payload(c) + t);
    match c.fate
    case Following => spec == Prepend(c.decoded, SpecFrom(max, c.framer, c.buffer + t))
    case Skipped => spec.ending == LineTooLong && spec.messages <= c.decoded
    case Broken(reason) => spec.messages == c.decoded && Allows(spec.ending, FrameError(reason, true))
  }

  ghost predicate Tells(max: nat, c: Conn) {
    forall t: bytes :: (c.eof ==> t == []) ==> TellsFuture(max, c, t)
  }

  /** Everything decoded is valid UTF-8 and within the limit. */
  predicate DecodedOk(max: nat, c: Conn) {
    forall b | b in c.decoded :: Deliverable(max, b)
  }

  ghost predicate StreamOk(cfg: Config, c: Conn) {
    && HeaderOk(cfg, c) && PositionOk(cfg.maxFrame, c) && Tells(cfg.maxFrame, c)
    && DecodedOk(cfg.maxFrame, c)
  }

  lemma NewStreamOk(cfg: Config, peer: Peer)
    ensures StreamOk(cfg, NewConn(cfg, peer))
  {
    hide StreamSpec, Proxy.Parse;
    var c := NewConn(cfg, peer);
    forall t: bytes ensures TellsFuture(cfg.maxFrame, c, t) {
      assert Payload(c) + t == t && c.buffer + t == t;
      PrependNothing(StreamSpec(cfg.maxFrame, t));
    }
  }

  lemma PrependNothing(spec: Transcript)
    ensures Prepend([], spec) == spec
  {
  }

  // --------------------------------------------------------------------- reader steps

  /** Nothing that the invariant speaks of has changed but the reader's position. */
  predicate SameStream(c: Conn, d: Conn) {
    && d.ownPeer == c.ownPeer && d.peer == c.peer && d.eof == c.eof && d.buffer == c.buffer
    && d.framer == c.framer && d.received == c.received && d.header == c.header
    && d.decoded == c.decoded && d.fate == c.fate && Started(d) == Started(c)
  }

  lemma SameTells(max: nat, c: Conn, d: Conn)
    requires SameStream(c, d) && Tells(max, c)
    ensures Tells(max, d)
  {
    hide SpecFrom, StreamSpec;
    forall t: bytes | d.eof ==> t == [] ensures TellsFuture(max, d, t) {
      assert TellsFuture(max, c, t);
    }
  }

  lemma HeaderStep(cfg: Config, c: Conn)
    requires StreamOk(cfg, c) && c.reader.HeaderParse?
    ensures StreamOk(cfg, HeaderNext(c))
  {
    hide Proxy.Parse, StreamSpec;
    var d := HeaderNext(c);
    var parsed := Proxy.Parse(c.buffer, Proxy.MAX_PROXY_HEADER_BYTES);
    if parsed.Complete? {
      assert Payload(d) == d.buffer;
      forall t: bytes ensures TellsFuture(cfg.maxFrame, d, t) {
        PrependNothing(StreamSpec(cfg.maxFrame, d.buffer + t));
      }
    } else {
      SameTells(cfg.maxFrame, c, d);
    }
  }

  lemma PayloadGrows(c: Conn, d: Conn, chunk: bytes, t: bytes)
    requires |c.header| <= |c.received| && d.header == c.header && d.received == c.received + chunk
    ensures Payload(d) + t == Payload(c) + (chunk + t)
  {
  }

  lemma DataTells(max: nat, c: Conn, d: Conn, chunk: bytes)
    requires |c.header| <= |c.received| && Tells(max, c) && !c.eof
    requires d.received == c.received + chunk && d.buffer == c.buffer + chunk
    requires SameStream(c, d.(received := c.received, buffer := c.buffer))
    ensures Tells(max, d)
  {
    hide SpecFrom, StreamSpec;
    forall t: bytes | d.eof ==> t == [] ensures TellsFuture(max, d, t) {
      assert TellsFuture(max, c, chunk + t);
      PayloadGrows(c, d, chunk, t);
      assert d.buffer + t == c.buffer + (chunk + t);
    }
  }

  lemma DataStep(cfg: Config, c: Conn, chunk: bytes)
    requires StreamOk(cfg, c) && c.reader.Reading? && chunk != []
    ensures StreamOk(cfg, c.(reader := Decoding, buffer := c.buffer + chunk, received := c.received + chunk))
  {
    hide Proxy.Parse, SpecFrom;
    var d := c.(reader := Decoding, buffer := c.buffer + chunk, received := c.received + chunk);
    DataTells(cfg.maxFrame, c, d, chunk);
    Proxy.ParseStable(c.received, chunk, Proxy.MAX_PROXY_HEADER_BYTES);
  }

  lemma HeaderDataStep(cfg: Config, c: Conn, chunk: bytes)
    requires StreamOk(cfg, c) && c.reader.HeaderRead? && chunk != []
    ensures StreamOk(cfg, c.(reader := HeaderParse, buffer := c.buffer + chunk, received := c.received + chunk))
  {
    hide Proxy.Parse, SpecFrom;
    var d := c.(reader := HeaderParse, buffer := c.buffer + chunk, received := c.received + chunk);
    DataTells(cfg.maxFrame, c, d, chunk);
  }

  lemma EofStep(cfg: Config, c: Conn)
    requires StreamOk(cfg, c) && c.reader.Reading?
    ensures StreamOk(cfg, c.(reader := Decoding, eof := true))
  {
    hide Proxy.Parse, SpecFrom, StreamSpec;
    var d := c.(reader := Decoding, eof := true);
    assert TellsFuture(cfg.maxFrame, c, []);
    assert TellsFuture(cfg.maxFrame, d, []);
  }

  // ----------------------------------------------------------------------- decode steps

  lemma DecodeTells(max: nat, c: Conn, cfg: Config, t: bytes)
    requires cfg.maxFrame == max && c.reader.Decoding? && HeaderOk(cfg, c) && PositionOk(max, c)
    requires TellsFuture(max, c, t) && (c.eof ==> t == []) && c.fate.Following?
    ensures TellsFuture(max, DecodeNext(cfg, c), t)
  {
    hide DecodeTurn, StreamSpec, SpecFrom, Proxy.Parse, Waiting;
    DecodeSimulates(max, c.eof, c.framer, c.buffer, t);
    var turn := DecodeTurn(max, c.eof, c.framer, c.buffer);
    match turn.out
    case Frame(body) =>
      var rest := SpecFrom(max, turn.state, turn.rest + t);
      assert c.decoded + ([body] + rest.messages) == (c.decoded + [body]) + rest.messages;
    case More =>
    case Rejected(error) =>
      assert c.decoded + [] == c.decoded;
  }

  lemma SkippedTells(max: nat, c: Conn, cfg: Config, t: bytes)
    requires cfg.maxFrame == max && c.reader.Decoding? && HeaderOk(cfg, c) && TellsFuture(max, c, t) && c.fate.Skipped?
    ensures TellsFuture(max, DecodeNext(cfg, c), t)
  {
    hide DecodeTurn, StreamSpec, SpecFrom, Proxy.Parse;
  }

  lemma FreshWaits(max: nat)
    ensures Waiting(max, FRESH, [])
  {
  }

  lemma DecodePosition(cfg: Config, c: Conn)
    requires PositionOk(cfg.maxFrame, c) && c.reader.Decoding?
    ensures PositionOk(cfg.maxFrame, DecodeNext(cfg, c))
  {
    hide DecodeTurn, SpecFrom, Waiting;
    var turn := DecodeTurn(cfg.maxFrame, c.eof, c.framer, c.buffer);
    if c.fate.Following? {
      DecodeSimulates(cfg.maxFrame, c.eof, c.framer, c.buffer, []);
      if c.eof {
        EofTurn(cfg.maxFrame, c.framer, c.buffer);
        FreshWaits(cfg.maxFrame);
      } else if turn.out.More? {
        MoreMeansWaiting(cfg.maxFrame, c.framer, c.buffer);
      }
    }
  }

  lemma DecodeStep(cfg: Config, c: Conn)
    requires StreamOk(cfg, c) && c.reader.Decoding?
    ensures StreamOk(cfg, DecodeNext(cfg, c))
  {
    DecodePosition(cfg, c);
    var d := DecodeNext(cfg, c);
    DecodeHeader(cfg, c);
    hide PositionOk, HeaderOk, DecodeNext, StreamSpec;
    forall t: bytes | d.eof ==> t == [] ensures TellsFuture(cfg.maxFrame, d, t) {
      assert TellsFuture(cfg.maxFrame, c, t);
      if c.fate.Following? {
        DecodeTells(cfg.maxFrame, c, cfg, t);
      } else {
        DecodingNotBroken(cfg.maxFrame, c);
        SkippedTells(cfg.maxFrame, c, cfg, t);
      }
    }
  }

  lemma DecodingNotBroken(max: nat, c: Conn)
    requires PositionOk(max, c) && c.reader.Decoding?
    ensures !c.fate.Broken?
  {
  }

  lemma DecodeHeader(cfg: Config, c: Conn)
    requires HeaderOk(cfg, c) && DecodedOk(cfg.maxFrame, c) && c.reader.Decoding?
    ensures HeaderOk(cfg, DecodeNext(cfg, c)) && DecodedOk(cfg.maxFrame, DecodeNext(cfg, c))
    ensures DecodeNext(cfg, c).eof == c.eof && |c.header| <= |c.received|
  {
    hide DecodeTurn, Proxy.Parse, Deliverable;
    FrameDeliverable(cfg.maxFrame, c.eof, c.framer, c.buffer);
  }

  // ----------------------------------------------------------------------- other steps

  /** The reader does not go back to reading, nor leave at end of stream with a message
      in hand. */
  predicate Onward(c: Conn, d: Conn) {
    && (Departed(c.reader) ==> Departed(d.reader))
    && (Departed(d.reader) ==> Departed(c.reader) || !c.eof)
    && (d.reader.Reading? ==> c.reader.Reading?)
    && (Panicked(d.reader) ==> Panicked(c.reader))
    && (d.reader.HeaderRead? ==> c.reader.HeaderRead?)
    && (d.reader.HeaderParse? || d.reader.HeaderRead? ==> c.reader.HeaderParse? || c.reader.HeaderRead?)
    && (!Started(c) ==> d.reader.HeaderParse? || d.reader.HeaderRead? || Departed(d.reader))
  }

  /** A step between reader positions with the stream untouched. */
  lemma MoveStep(cfg: Config, c: Conn, d: Conn)
    requires StreamOk(cfg, c) && SameStream(c, d) && Onward(c, d)
    ensures StreamOk(cfg, d)
  {
    hide Proxy.Parse, SpecFrom, Waiting, InStep;
    SameTells(cfg.maxFrame, c, d);
  }

  lemma ReaderStreamOk(cfg: Config, env: Env, c: Conn, l: ReaderStep)
    requires StreamOk(cfg, c) && ReaderNext(cfg, env, c, l).Some? && !l.SendFailed?
    ensures StreamOk(cfg, ReaderNext(cfg, env, c, l).value.next)
  {
    hide StreamOk, HeaderNext, DecodeNext, HandoverNext, FarewellNext, SameStream, Onward;
    var d := ReaderNext(cfg, env, c, l).value.next;
    NotYetStarted(cfg, c);
    match l
    case ParseHeader => HeaderStep(cfg, c);
    case HeaderData(chunk) => HeaderDataStep(cfg, c, chunk);
    case Decode => DecodeStep(cfg, c);
    case Data(chunk) => DataStep(cfg, c, chunk);
    case Eof => EofStep(cfg, c);
    case HeaderFail | Quit | SeeCancel =>
      InputMoves(cfg, env.cancelled, c, l);
      MoveStep(cfg, c, d);
    case Acquire | AssignId | GaugeUp | Send =>
      HandoverMoves(cfg, env.shared, c, l);
      MoveStep(cfg, c, d);
    case _ =>
      FarewellMoves(c, l);
      MoveStep(cfg, c, d);
  }

  lemma InputMoves(cfg: Config, cancelled: bool, c: Conn, l: ReaderStep)
    requires InputNext(cfg, cancelled, c, l).Some? && (l.HeaderFail? || l.Quit? || l.SeeCancel?)
    requires c.reader.Reading? || c.reader.HeaderRead? ==> !c.eof
    ensures var d := InputNext(cfg, cancelled, c, l).value; SameStream(c, d) && Onward(c, d)
  {
  }

  lemma HandoverMoves(cfg: Config, shared: Tally, c: Conn, l: ReaderStep)
    requires !Started(c) ==> c.reader.HeaderParse? || c.reader.HeaderRead? || Departed(c.reader)
    requires HandoverNext(cfg, shared, c, l).Some? && !l.SendFailed?
    ensures var d := HandoverNext(cfg, shared, c, l).value.next; SameStream(c, d) && Onward(c, d)
  {
  }

  lemma FarewellMoves(c: Conn, l: ReaderStep)
    requires FarewellNext(c, l).Some?
    ensures var d := FarewellNext(c, l).value.next; SameStream(c, d) && Onward(c, d)
  {
  }

  lemma NotYetStarted(cfg: Config, c: Conn)
    requires StreamOk(cfg, c)
    ensures !Started(c) ==> c.reader.HeaderParse? || c.reader.HeaderRead? || Departed(c.reader)
    ensures c.reader.Reading? || c.reader.HeaderRead? ==> !c.eof
  {
    hide Proxy.Parse, SpecFrom, Waiting, Tells;
  }

  lemma CourierStreamOk(cfg: Config, env: Env, c: Conn, l: CourierStep)
    requires StreamOk(cfg, c) && CourierNext(env, c, l).Some?
    ensures StreamOk(cfg, CourierNext(env, c, l).value.next)
  {
    hide StreamOk, HoldNext;
    NotYetStarted(cfg, c);
    MoveStep(cfg, c, CourierNext(env, c, l).value.next);
  }

  // ----------------------------------------------------------------------- whole runs

  ghost predicate AllStreams(cfg: Config, tasks: seq<Task>) {
    forall i | 0 <= i < |tasks| :: tasks[i].Serving? ==> StreamOk(cfg, tasks[i].conn)
  }

  lemma TaskStreamOk(cfg: Config, env: Env, t: Task, l: TaskStep)
    requires TaskNext(cfg, env, t, l).Some? && l != ReaderDo(SendFailed)
    requires t.Serving? ==> StreamOk(cfg, t.conn)
    ensures var a := TaskNext(cfg, env, t, l).value;
            AllStreams(cfg, [a.next] + a.spawned)
  {
    hide StreamOk, ReaderNext, CourierNext, HoldNext, NewConn;
    match l
    case ReaderDo(step) => ReaderStreamOk(cfg, env, t.conn, step);
    case CourierDo(step) => CourierStreamOk(cfg, env, t.conn, step);
    case ListenerDo(step) =>
      if step.SpawnStream? {
        NewStreamOk(cfg, t.listener.peer);
      }
    case _ =>
  }

  lemma StepStreams(cfg: Config, s: System, step: Step)
    requires Safety.Inv(cfg, s) && AllStreams(cfg, s.tasks) && Next(cfg, s, step).Some?
    ensures AllStreams(cfg, Next(cfg, s, step).value.tasks)
  {
    hide Safety.Inv, StreamOk, TaskNext;
    if step.At? {
      Safety.TaskStepInv(cfg, s, step.i, step.l);
      var env := Env(s.cancelled, s.shared);
      TaskStreamOk(cfg, env, s.tasks[step.i], step.l);
      var a := TaskNext(cfg, env, s.tasks[step.i], step.l).value;
      var moved := [a.next] + a.spawned;
      var next := Next(cfg, s, step).value.tasks;
      forall i | 0 <= i < |next| && next[i].Serving? ensures StreamOk(cfg, next[i].conn) {
        if i >= |s.tasks| {
          assert next[i] == moved[i - |s.tasks| + 1];
        } else if i == step.i {
          assert next[i] == moved[0];
        } else {
          assert next[i] == s.tasks[i];
        }
      }
    }
  }

  lemma {:induction false} RunStreams(cfg: Config, s: System, run: seq<Step>)
    requires Safety.Inv(cfg, s) && AllStreams(cfg, s.tasks) && Execute(cfg, s, run).Some?
    ensures AllStreams(cfg, Execute(cfg, s, run).value.tasks)
    decreases |run|
  {
    hide Safety.Inv, AllStreams, Next;
    if run != [] {
      var before := run[..|run| - 1];
      RunStreams(cfg, s, before);
      Safety.RunInv(cfg, s, before);
      StepStreams(cfg, Execute(cfg, s, before).value, run[|run| - 1]);
    }
  }

  lemma ReachableStreams(cfg: Config, s: System)
    requires Safety.Reachable(cfg, s)
    ensures AllStreams(cfg, s.tasks)
  {
    hide Safety.Inv, StreamOk, Execute;
    var streams: nat, datagrams: bool, run: seq<Step> :|
      Execute(cfg, Initial(cfg, streams, datagrams), run) == Some(s);
    Safety.InitialInv(cfg, streams, datagrams);
    RunStreams(cfg, Initial(cfg, streams, datagrams), run);
  }

  /** Every connection of every reachable state, on any input: its PROXY header and
      peer are what `parse` says of the bytes it read, and whatever the stream goes on
      with, the messages it has decoded are those of the whole-stream reference. */
  lemma StreamFaithful(cfg: Config, s: System, i: nat, t: bytes)
    requires Safety.Reachable(cfg, s) && i < |s.tasks| && s.tasks[i].Serving?
    requires s.tasks[i].conn.eof ==> t == []
    ensures var c := s.tasks[i].conn;
            && HeaderOk(cfg, c) && PositionOk(cfg.maxFrame, c) && TellsFuture(cfg.maxFrame, c, t)
            && DecodedOk(cfg.maxFrame, c)
  {
    hide HeaderOk, PositionOk, TellsFuture, DecodedOk, Safety.Reachable;
    ReachableStreams(cfg, s);
    assert StreamOk(cfg, s.tasks[i].conn);
  }

  /** A header that is refused is not read on: a connection whose bytes so far are no
      header waits for no more of them and never starts. */
  lemma RefusedNotAwaited(cfg: Config, s: System, i: nat)
    requires Safety.Reachable(cfg, s) && i < |s.tasks| && s.tasks[i].Serving? && cfg.proxyProtocol
    requires Proxy.Parse(s.tasks[i].conn.received, 1024).Failed?
    ensures var c := s.tasks[i].conn;
            !Started(c) && c.decoded == [] && (c.reader.HeaderParse? || Departed(c.reader))
  {
    hide Safety.Reachable, Proxy.Parse;
    StreamFaithful(cfg, s, i, []);
  }
}
