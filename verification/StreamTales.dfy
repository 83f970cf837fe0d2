/** The tales inside the running system: past skipped lines too, what a connection has
    decoded is the start of a tale of the bytes it read, whatever comes next. */
module StreamTales {
  import opened Bytes
  import opened Framing
  import opened FramingStream
  import opened FramingTales
  import opened FramingCuts
  import opened FramingCondition
  import opened Delivery
  import opened StreamDelivery
  import Safety

  /** The messages among the events. */
  function Said(events: seq<Event>): seq<bytes> {
    if events == [] then []
    else
      var n := |events| - 1;
      Said(events[..n]) + if events[n].Emit? then [events[n].body] else []
  }

  lemma SaidOne(past: seq<Event>, e: Event)
    ensures Said(past + [e]) == Said(past) + if e.Emit? then [e.body] else []
  {
    assert (past + [e])[..|past|] == past;
  }

  // ------------------------------------------------------------------- one call at the end

  /** The states between the calls at end of stream: quiet, or behind counted frames with
      more searched than there is. */
  predicate AtEnd(max: nat, state: FramerState, b: bytes) {
    || Quiet(max, state, b)
    || (state.octet.None? && !state.line.skipping && |b| < state.line.index <= max && NEWLINE !in b)
  }

  lemma EndCall(max: nat, state: FramerState, b: bytes, events: seq<Event>)
    requires InMode(max, state, b) && AtEnd(max, state, b)
    requires var turn := DecodeTurn(max, true, state, b);
             turn.out.Frame? ==> FromTale(max, turn.state, turn.rest, |turn.rest| + 1, events)
    ensures var turn := DecodeTurn(max, true, state, b);
            && (turn.out.Frame? ==> InMode(max, turn.state, turn.rest) && AtEnd(max, turn.state, turn.rest))
            && !(turn.out.Rejected? && !turn.out.error.fatal)
            && FromTale(max, state, b, |b| + 1, Say(turn, if turn.out.Frame? then events else []))
  {
    if state.octet.None? {
      if b != [] && IsCountStart(b[0]) {
        CountAtEnd(max, state.line, b, events);
      } else {
        LineAtEnd(max, state.line, b, events);
      }
    } else {
      PendingAtEnd(max, state, b);
    }
  }

  lemma CountAtEnd(max: nat, line: LineState, b: bytes, events: seq<Event>)
    requires b != [] && IsCountStart(b[0]) && NEWLINE !in b && |b| <= max && !line.skipping && |b| <= line.index <= max
    requires var turn := DecodeTurn(max, true, FramerState(None, line), b);
             turn.out.Frame? ==> FromTale(max, turn.state, turn.rest, |turn.rest| + 1, events)
    ensures var turn := DecodeTurn(max, true, FramerState(None, line), b);
            && (turn.out.Frame? ==> InMode(max, turn.state, turn.rest) && AtEnd(max, turn.state, turn.rest))
            && !(turn.out.Rejected? && !turn.out.error.fatal)
            && Tale(max, line, b, |b| + 1, Say(turn, if turn.out.Frame? then events else []))
  {
    hide DecodeTurn, OctetFront, Tale, Seek;
    var turn := DecodeTurn(max, true, FramerState(None, line), b);
    ShortCount(max, line, b);
    var told := Say(turn, if turn.out.Frame? then events else []);
    CountedIsTale(max, line, b, |b| + 1, told);
    if turn.out.Frame? {
      assert told[1..] == events;
    }
  }

  lemma LineAtEnd(max: nat, line: LineState, b: bytes, events: seq<Event>)
    requires b != [] ==> !IsCountStart(b[0])
    requires InMode(max, FramerState(None, line), b) && AtEnd(max, FramerState(None, line), b)
    requires var turn := DecodeTurn(max, true, FramerState(None, line), b);
             turn.out.Frame? ==> FromTale(max, turn.state, turn.rest, |turn.rest| + 1, events)
    ensures var turn := DecodeTurn(max, true, FramerState(None, line), b);
            && (turn.out.Frame? ==> InMode(max, turn.state, turn.rest) && AtEnd(max, turn.state, turn.rest))
            && !(turn.out.Rejected? && !turn.out.error.fatal)
            && Tale(max, line, b, |b| + 1, Say(turn, if turn.out.Frame? then events else []))
  {
    hide OctetTurn, OctetFront, CountedTale, SkipTale, SeekFrom, ValidUtf8;
    NothingBehind(b);
    assert b[|b|..] == [];
    var turn := DecodeTurn(max, true, FramerState(None, line), b);
    if turn.out.Frame? {
      NoTale(max, 1, events);
      assert Say(turn, events)[1..] == [];
    }
  }

  lemma PendingAtEnd(max: nat, state: FramerState, b: bytes)
    requires state.octet.Some? && InMode(max, state, b) && Quiet(max, state, b)
    ensures var turn := DecodeTurn(max, true, state, b);
            && !turn.out.Frame? && !(turn.out.Rejected? && !turn.out.error.fatal)
            && FromTale(max, state, b, |b| + 1, Say(turn, []))
  {
    if state.octet.value.NotDiscarding? {
      CountedIsTale(max, state.line, b, |b| + 1, []);
      hide Tale;
      PendingFront(max, state.line, b);
    } else {
      hide Tale, ParseUsize, ValidUtf8;
    }
  }

  // ------------------------------------------------------------------------- one connection

  /** How many bytes the next call will see at least: one more after a read. */
  function Held(c: Conn): nat {
    |c.buffer| + if c.reader.Reading? || Departed(c.reader) || c.eof then 1 else 0
  }

  /** Ready for its next call. */
  predicate Poised(max: nat, c: Conn) {
    && InMode(max, c.framer, c.buffer)
    && (c.reader.Reading? || Departed(c.reader) ==> Quiet(max, c.framer, c.buffer))
    && (c.eof ==> AtEnd(max, c.framer, c.buffer))
  }

  /** `past` and anything the framer can still say make a tale of the stream. */
  ghost predicate ToldSoFar(max: nat, c: Conn, past: seq<Event>) {
    forall t: bytes, events: seq<Event>
      | (c.eof ==> t == []) && FromTale(max, c.framer, c.buffer + t, Held(c), events) ::
      Tale(max, START, Payload(c) + t, 0, past + events)
  }

  /** `past` is a tale of the stream, however it goes on. */
  ghost predicate ToldAll(max: nat, c: Conn, past: seq<Event>) {
    forall t: bytes | c.eof ==> t == [] :: Tale(max, START, Payload(c) + t, 0, past)
  }

  /** The framer has said `past`, and has more to say or was the end of the reader. */
  ghost predicate TaleWith(max: nat, c: Conn, past: seq<Event>) {
    && Said(past) == c.decoded
    && ((Poised(max, c) && ToldSoFar(max, c, past)) || (Departed(c.reader) && ToldAll(max, c, past)))
    && (Panicked(c.reader) ==> ToldAll(max, c, past) && Crash in past)
  }

  ghost predicate TaleOk(max: nat, c: Conn) {
    Started(c) ==> exists past: seq<Event> :: TaleWith(max, c, past)
  }

  lemma NewTale(max: nat, c: Conn)
    requires c.framer == FRESH && c.buffer == Payload(c) && c.decoded == [] && !c.eof && c.reader.Decoding?
    ensures TaleOk(max, c)
  {
    hide Tale;
    forall t: bytes, events: seq<Event> | FromTale(max, c.framer, c.buffer + t, Held(c), events)
      ensures Tale(max, START, Payload(c) + t, 0, [] + events)
    {
      Looser(max, START, c.buffer + t, Held(c), 0, events);
      assert [] + events == events;
    }
    assert TaleWith(max, c, []);
  }

  /** The event of a call, if it has one. */
  function Spoken(turn: Turn): seq<Event> {
    if turn.out.More? then [] else Say(turn, [])
  }

  lemma SpokenFirst(turn: Turn, past: seq<Event>, events: seq<Event>)
    ensures Ends(turn) ==> past + Say(turn, events) == past + Spoken(turn)
    ensures !Ends(turn) ==> past + Say(turn, events) == (past + Spoken(turn)) + events
  {
  }

  /** What `decode` returned is what was said. */
  lemma DecodeSays(cfg: Config, c: Conn, past: seq<Event>)
    requires Said(past) == c.decoded
    ensures var turn := DecodeTurn(cfg.maxFrame, c.eof, c.framer, c.buffer);
            Said(past + Spoken(turn)) == DecodeNext(cfg, c).decoded
  {
    hide DecodeTurn;
    var turn := DecodeTurn(cfg.maxFrame, c.eof, c.framer, c.buffer);
    if turn.out.More? {
      assert past + Spoken(turn) == past;
    } else {
      assert Spoken(turn) == [Spoken(turn)[0]];
      SaidOne(past, Spoken(turn)[0]);
    }
  }

  lemma DecodeTale(cfg: Config, c: Conn, past: seq<Event>)
    requires c.reader.Decoding? && TaleWith(cfg.maxFrame, c, past) && !c.eof
    ensures var d := DecodeNext(cfg, c); var turn := DecodeTurn(cfg.maxFrame, c.eof, c.framer, c.buffer);
            TaleWith(cfg.maxFrame, d, past + Spoken(turn))
  {
    hide DecodeTurn, Tale, FromTale, InMode, Quiet, Said;
    var max, d, turn := cfg.maxFrame, DecodeNext(cfg, c), DecodeTurn(cfg.maxFrame, c.eof, c.framer, c.buffer);
    DecodeSays(cfg, c, past);
    var now := past + Spoken(turn);
    if Ends(turn) {
      forall t: bytes ensures Tale(max, START, Payload(d) + t, 0, now) {
        TurnTells(max, c.framer, c.buffer, t, []);
        SpokenFirst(turn, past, []);
      }
      assert turn.out.Panic? ==> now[|past|] == Crash;
    } else {
      KeepsMode(max, false, c.framer, c.buffer);
      if turn.out.More? {
        MoreIsQuiet(max, c.framer, c.buffer);
      }
      forall t: bytes, events: seq<Event> | FromTale(max, d.framer, d.buffer + t, Held(d), events)
        ensures Tale(max, START, Payload(d) + t, 0, now + events)
      {
        TurnTells(max, c.framer, c.buffer, t, events);
        SpokenFirst(turn, past, events);
      }
    }
  }

  lemma DecodeEofTale(cfg: Config, c: Conn, past: seq<Event>)
    requires c.reader.Decoding? && TaleWith(cfg.maxFrame, c, past) && c.eof
    ensures var d := DecodeNext(cfg, c); var turn := DecodeTurn(cfg.maxFrame, c.eof, c.framer, c.buffer);
            TaleWith(cfg.maxFrame, d, past + Spoken(turn))
  {
    hide DecodeTurn, Tale, FromTale, InMode, AtEnd, Said, ToldSoFar, ToldAll;
    var turn := DecodeTurn(cfg.maxFrame, c.eof, c.framer, c.buffer);
    DecodeSays(cfg, c, past);
    if turn.out.Frame? {
      EndMode(cfg.maxFrame, c.framer, c.buffer);
      FrameEofTale(cfg, c, past);
    } else {
      LastEofTale(cfg, c, past);
      assert turn.out.Panic? ==> (past + Spoken(turn))[|past|] == Crash;
    }
  }

  lemma FrameEofTale(cfg: Config, c: Conn, past: seq<Event>)
    requires c.reader.Decoding? && Poised(cfg.maxFrame, c) && ToldSoFar(cfg.maxFrame, c, past) && c.eof
    requires DecodeTurn(cfg.maxFrame, true, c.framer, c.buffer).out.Frame?
    ensures var turn := DecodeTurn(cfg.maxFrame, true, c.framer, c.buffer);
            ToldSoFar(cfg.maxFrame, DecodeNext(cfg, c), past + Spoken(turn))
  {
    hide DecodeTurn, Tale, FromTale, InMode, AtEnd, Spoken, Say;
    var max, d, turn := cfg.maxFrame, DecodeNext(cfg, c), DecodeTurn(cfg.maxFrame, c.eof, c.framer, c.buffer);
    assert c.buffer + [] == c.buffer && d.buffer + [] == d.buffer;
    forall events: seq<Event> | FromTale(max, d.framer, d.buffer + [], Held(d), events)
      ensures Tale(max, START, Payload(d) + [], 0, past + Spoken(turn) + events)
    {
      EndCall(max, c.framer, c.buffer, events);
      SpokenFirst(turn, past, events);
    }
  }

  lemma LastEofTale(cfg: Config, c: Conn, past: seq<Event>)
    requires c.reader.Decoding? && Poised(cfg.maxFrame, c) && ToldSoFar(cfg.maxFrame, c, past) && c.eof
    requires !DecodeTurn(cfg.maxFrame, true, c.framer, c.buffer).out.Frame?
    ensures var turn := DecodeTurn(cfg.maxFrame, true, c.framer, c.buffer); var d := DecodeNext(cfg, c);
            ToldAll(cfg.maxFrame, d, past + Spoken(turn)) && Departed(d.reader)
  {
    hide DecodeTurn, Tale, FromTale, InMode, AtEnd, Spoken, Say;
    var max, d, turn := cfg.maxFrame, DecodeNext(cfg, c), DecodeTurn(cfg.maxFrame, c.eof, c.framer, c.buffer);
    assert c.buffer + [] == c.buffer;
    EndCall(max, c.framer, c.buffer, []);
    SpokenFirst(turn, past, []);
    assert past + Say(turn, []) == past + Spoken(turn);
  }

  lemma EndMode(max: nat, state: FramerState, b: bytes)
    requires InMode(max, state, b) && AtEnd(max, state, b) && DecodeTurn(max, true, state, b).out.Frame?
    ensures var turn := DecodeTurn(max, true, state, b);
            InMode(max, turn.state, turn.rest) && AtEnd(max, turn.state, turn.rest)
  {
    hide ParseUsize, ValidUtf8, Seek, SeekFrom;
  }

  /** More bytes. */
  lemma DataTale(cfg: Config, c: Conn, chunk: bytes, past: seq<Event>)
    requires c.reader.Reading? && chunk != [] && !c.eof && |c.header| <= |c.received|
    requires TaleWith(cfg.maxFrame, c, past)
    ensures var d := c.(reader := Decoding, buffer := c.buffer + chunk, received := c.received + chunk);
            TaleWith(cfg.maxFrame, d, past)
  {
    hide Tale, FromTale, Said;
    var max, d := cfg.maxFrame, c.(reader := Decoding, buffer := c.buffer + chunk, received := c.received + chunk);
    forall t: bytes, events: seq<Event> | FromTale(max, d.framer, d.buffer + t, Held(d), events)
      ensures Tale(max, START, Payload(d) + t, 0, past + events)
    {
      PayloadGrows(c, d, chunk, t);
      assert d.buffer + t == c.buffer + (chunk + t);
      LooserFrom(max, c.framer, d.buffer + t, Held(d), Held(c), events);
    }
  }

  lemma EofTale(cfg: Config, c: Conn, past: seq<Event>)
    requires c.reader.Reading? && TaleWith(cfg.maxFrame, c, past) && !c.eof
    ensures var d := c.(reader := Decoding, eof := true);
            TaleWith(cfg.maxFrame, d, past)
  {
    hide Tale, FromTale, Said, Quiet, InMode;
    var d := c.(reader := Decoding, eof := true);
    assert ToldSoFar(cfg.maxFrame, d, past);
  }

  /** Nothing of the stream has changed, nor what the next call sees. */
  predicate Alike(c: Conn, d: Conn) {
    && SameStream(c, d) && Held(d) == Held(c)
    && (Departed(c.reader) ==> Departed(d.reader))
    && (d.reader.Reading? || Departed(d.reader) ==> c.reader.Reading? || Departed(c.reader))
    && (Panicked(d.reader) ==> Panicked(c.reader))
  }

  lemma AlikeTale(max: nat, c: Conn, d: Conn)
    requires TaleOk(max, c) && Alike(c, d)
    ensures TaleOk(max, d)
  {
    hide Tale, FromTale, Said, Quiet, InMode, AtEnd, ToldSoFar, ToldAll;
    if Started(c) {
      var past: seq<Event> :| TaleWith(max, c, past);
      AlikeTold(max, c, d, past);
      assert TaleWith(max, d, past);
    }
  }

  lemma AlikeTold(max: nat, c: Conn, d: Conn, past: seq<Event>)
    requires Alike(c, d)
    ensures ToldSoFar(max, c, past) ==> ToldSoFar(max, d, past)
    ensures ToldAll(max, c, past) ==> ToldAll(max, d, past)
  {
    hide Tale, FromTale, Held;
    assert Payload(d) == Payload(c);
  }

  // ----------------------------------------------------------------------------- whole runs

  lemma DecodeTaleOk(cfg: Config, c: Conn)
    requires c.reader.Decoding? && TaleOk(cfg.maxFrame, c)
    ensures TaleOk(cfg.maxFrame, DecodeNext(cfg, c))
  {
    hide DecodeTurn, Poised, TaleWith;
    if Started(c) {
      var past: seq<Event> :| TaleWith(cfg.maxFrame, c, past);
      if c.eof {
        DecodeEofTale(cfg, c, past);
      } else {
        DecodeTale(cfg, c, past);
      }
    }
  }

  lemma ReadTaleOk(cfg: Config, c: Conn, l: ReaderStep)
    requires c.reader.Reading? && TaleOk(cfg.maxFrame, c) && HeaderOk(cfg, c) && PositionOk(cfg.maxFrame, c)
    requires (l.Data? && l.chunk != []) || l.Eof?
    ensures l.Data? ==>
              var buffer, received := c.buffer + l.chunk, c.received + l.chunk;
              TaleOk(cfg.maxFrame, c.(reader := Decoding, buffer := buffer, received := received))
    ensures l.Eof? ==> TaleOk(cfg.maxFrame, c.(reader := Decoding, eof := true))
  {
    hide Poised, TaleWith, Proxy.Parse, SpecFrom;
    if Started(c) {
      var past: seq<Event> :| TaleWith(cfg.maxFrame, c, past);
      match l
      case Data(chunk) => DataTale(cfg, c, chunk, past);
      case Eof => EofTale(cfg, c, past);
    }
  }

  lemma HeaderTaleOk(cfg: Config, c: Conn)
    requires c.reader.HeaderParse? && HeaderOk(cfg, c)
    ensures TaleOk(cfg.maxFrame, HeaderNext(c))
  {
    hide Proxy.Parse;
    var d := HeaderNext(c);
    if Started(d) {
      assert d.buffer == Payload(d);
      NewTale(cfg.maxFrame, d);
    }
  }

  lemma InputTaleOk(cfg: Config, cancelled: bool, c: Conn, l: ReaderStep)
    requires TaleOk(cfg.maxFrame, c) && HeaderOk(cfg, c) && PositionOk(cfg.maxFrame, c)
    requires InputNext(cfg, cancelled, c, l).Some?
    ensures TaleOk(cfg.maxFrame, InputNext(cfg, cancelled, c, l).value)
  {
    hide DecodeNext, HeaderNext, Poised, TaleWith, PositionOk;
    match l
    case ParseHeader => HeaderTaleOk(cfg, c);
    case Decode => DecodeTaleOk(cfg, c);
    case Data(_) => ReadTaleOk(cfg, c, l);
    case Eof => ReadTaleOk(cfg, c, l);
    case Quit | SeeCancel => AlikeTale(cfg.maxFrame, c, InputNext(cfg, cancelled, c, l).value);
    case _ => StillUnstarted(cfg, cancelled, c, l);
  }

  lemma StillUnstarted(cfg: Config, cancelled: bool, c: Conn, l: ReaderStep)
    requires HeaderOk(cfg, c) && InputNext(cfg, cancelled, c, l).Some? && (l.HeaderData? || l.HeaderFail?)
    ensures !Started(InputNext(cfg, cancelled, c, l).value)
  {
    hide Proxy.Parse;
  }

  lemma HandoverAlike(cfg: Config, shared: Tally, c: Conn, l: ReaderStep)
    requires HandoverNext(cfg, shared, c, l).Some? && !l.SendFailed?
    ensures Alike(c, HandoverNext(cfg, shared, c, l).value.next)
  {
  }

  lemma FarewellAlike(c: Conn, l: ReaderStep)
    requires FarewellNext(c, l).Some?
    ensures Alike(c, FarewellNext(c, l).value.next)
  {
  }

  lemma CourierAlike(env: Env, c: Conn, l: CourierStep)
    requires CourierNext(env, c, l).Some?
    ensures Alike(c, CourierNext(env, c, l).value.next)
  {
    hide HoldNext;
  }

  lemma ReaderTaleOk(cfg: Config, env: Env, c: Conn, l: ReaderStep)
    requires TaleOk(cfg.maxFrame, c) && StreamOk(cfg, c) && ReaderNext(cfg, env, c, l).Some? && !l.SendFailed?
    ensures TaleOk(cfg.maxFrame, ReaderNext(cfg, env, c, l).value.next)
  {
    hide TaleOk, InputNext, HandoverNext, FarewellNext, HeaderOk, PositionOk, Alike;
    match l
    case Acquire | AssignId | GaugeUp | Send =>
      HandoverAlike(cfg, env.shared, c, l);
      AlikeTale(cfg.maxFrame, c, HandoverNext(cfg, env.shared, c, l).value.next);
    case DropSender | Join | CloseConn | CountClosed | Exit | Unwind =>
      FarewellAlike(c, l);
      AlikeTale(cfg.maxFrame, c, FarewellNext(c, l).value.next);
    case _ => InputTaleOk(cfg, env.cancelled, c, l);
  }

  ghost predicate AllTales(cfg: Config, tasks: seq<Task>) {
    forall i | 0 <= i < |tasks| :: tasks[i].Serving? ==> TaleOk(cfg.maxFrame, tasks[i].conn)
  }

  lemma SpawnTaleOk(cfg: Config, peer: Peer)
    ensures TaleOk(cfg.maxFrame, NewConn(cfg, peer))
  {
    hide TaleOk;
    var c := NewConn(cfg, peer);
    if cfg.proxyProtocol {
      UnstartedTaleOk(cfg.maxFrame, c);
    } else {
      NewTale(cfg.maxFrame, c);
    }
  }

  lemma UnstartedTaleOk(max: nat, c: Conn)
    requires !Started(c)
    ensures TaleOk(max, c)
  {
  }

  lemma TaskTaleOk(cfg: Config, env: Env, t: Task, l: TaskStep)
    requires TaskNext(cfg, env, t, l).Some? && l != ReaderDo(SendFailed)
    requires t.Serving? ==> StreamOk(cfg, t.conn) && TaleOk(cfg.maxFrame, t.conn)
    ensures var a := TaskNext(cfg, env, t, l).value;
            AllTales(cfg, [a.next] + a.spawned)
  {
    hide StreamOk, TaleOk, ReaderNext, CourierNext, HoldNext, NewConn, Alike;
    match l
    case ReaderDo(step) => ReaderTaleOk(cfg, env, t.conn, step);
    case CourierDo(step) =>
      CourierAlike(env, t.conn, step);
      AlikeTale(cfg.maxFrame, t.conn, CourierNext(env, t.conn, step).value.next);
    case ListenerDo(step) =>
      if step.SpawnStream? {
        SpawnTaleOk(cfg, t.listener.peer);
      }
    case _ =>
  }

  lemma StepTales(cfg: Config, s: System, step: Step)
    requires Safety.Inv(cfg, s) && AllStreams(cfg, s.tasks) && AllTales(cfg, s.tasks) && Next(cfg, s, step).Some?
    ensures AllTales(cfg, Next(cfg, s, step).value.tasks)
  {
    hide Safety.Inv, StreamOk, TaleOk, TaskNext;
    if step.At? {
      Safety.TaskStepInv(cfg, s, step.i, step.l);
      var env := Env(s.cancelled, s.shared);
      TaskTaleOk(cfg, env, s.tasks[step.i], step.l);
      var a := TaskNext(cfg, env, s.tasks[step.i], step.l).value;
      var moved := [a.next] + a.spawned;
      var next := Next(cfg, s, step).value.tasks;
      forall i | 0 <= i < |next| && next[i].Serving? ensures TaleOk(cfg.maxFrame, next[i].conn) {
        if i >= |s.tasks| {
          assert next[i] == moved[i - |s.tasks| + 1];
        } else if i == step.i {
          assert next[i] == moved[0];
        } else {
          assert next[i] == s.tasks[i];
        }
      }
    }
  }

  lemma {:induction false} RunTales(cfg: Config, s: System, run: seq<Step>)
    requires Safety.Inv(cfg, s) && AllStreams(cfg, s.tasks) && AllTales(cfg, s.tasks) && Execute(cfg, s, run).Some?
    ensures AllTales(cfg, Execute(cfg, s, run).value.tasks)
    decreases |run|
  {
    hide Safety.Inv, AllStreams, AllTales, Next;
    if run != [] {
      var before := run[..|run| - 1];
      RunTales(cfg, s, before);
      RunStreams(cfg, s, before);
      Safety.RunInv(cfg, s, before);
      StepTales(cfg, Execute(cfg, s, before).value, run[|run| - 1]);
    }
  }

  lemma ReachableTales(cfg: Config, s: System)
    requires Safety.Reachable(cfg, s)
    ensures AllTales(cfg, s.tasks)
  {
    hide Safety.Inv, StreamOk, TaleOk, Execute;
    var streams: nat, datagrams: bool, run: seq<Step> :|
      Execute(cfg, Initial(cfg, streams, datagrams), run) == Some(s);
    Safety.InitialInv(cfg, streams, datagrams);
    RunTales(cfg, Initial(cfg, streams, datagrams), run);
  }

  /** There is always something to be told. */
  lemma SomeTold(max: nat, c: Conn, t: bytes) returns (events: seq<Event>)
    requires Poised(max, c) && (c.eof ==> t == [])
    ensures FromTale(max, c.framer, c.buffer + t, Held(c), events)
  {
    hide Tale, FromTale, Run, Drain;
    if t == [] {
      assert c.buffer + t == c.buffer;
      if c.eof || Held(c) > |c.buffer| {
        events := Drain(max, true, c.framer, c.buffer).events;
        TellsEnd(max, c.framer, c.buffer);
      } else {
        events := Run(max, c.framer, c.buffer, []).events;
        RunTold(max, c.framer, c.buffer, []);
        assert c.buffer + Concat([]) == c.buffer;
      }
    } else if Held(c) > |c.buffer| {
      events := Run(max, c.framer, c.buffer + t, []).events;
      RunTold(max, c.framer, c.buffer + t, []);
      assert (c.buffer + t) + Concat([]) == c.buffer + t;
      LooserFrom(max, c.framer, c.buffer + t, |c.buffer + t|, Held(c), events);
    } else {
      events := Run(max, c.framer, c.buffer, [t]).events;
      assert [t][1..] == [] && Concat([]) == [] && t + [] == t;
      assert Concat([t]) == t;
      RunTold(max, c.framer, c.buffer, [t]);
    }
  }

  lemma TellsEnd(max: nat, state: FramerState, b: bytes)
    requires InMode(max, state, b) && AtEnd(max, state, b)
    ensures FromTale(max, state, b, |b| + 1, Drain(max, true, state, b).events)
  {
    hide Drain, Tale, Quiet;
    if Quiet(max, state, b) {
      EofTells(max, state, b);
    } else {
      ShortEof(max, state.line.index, b, |b| + 1);
    }
  }

  lemma {:induction false} SaidPrefix(past: seq<Event>, events: seq<Event>)
    ensures Said(past) <= Said(past + events)
  {
    if events == [] {
      assert past + events == past;
    } else {
      var n := |events| - 1;
      SaidPrefix(past, events[..n]);
      assert past + events == (past + events[..n]) + [events[n]];
      SaidOne(past + events[..n], events[n]);
    }
  }

  /** Every connection of every reachable state, on any input: whatever its stream goes on
      with, the messages it has decoded are the first of one of the tales computed from
      the bytes it read and those to come. If its reader has panicked, that tale ends
      there, and only on streams that can end so does a reader panic. */
  lemma StreamTale(cfg: Config, s: System, i: nat, t: bytes) returns (events: seq<Event>)
    requires Safety.Reachable(cfg, s) && i < |s.tasks| && s.tasks[i].Serving? && Started(s.tasks[i].conn)
    requires s.tasks[i].conn.eof ==> t == []
    ensures var c := s.tasks[i].conn;
            && events in Tales(cfg.maxFrame, START, Payload(c) + t, 0)
            && c.decoded <= Said(events)
            && (Panicked(c.reader) ==>
                  c.decoded == Said(events) && Crash in events && CanCrash(cfg.maxFrame, Payload(c) + t))
  {
    hide Safety.Reachable, Tale, FromTale, Tales, Said, Run, Poised;
    var max, c := cfg.maxFrame, s.tasks[i].conn;
    ReachableTales(cfg, s);
    assert TaleOk(max, c);
    var past: seq<Event> :| TaleWith(max, c, past);
    if Departed(c.reader) && ToldAll(max, c, past) {
      events := past;
    } else {
      var more := SomeTold(max, c, t);
      events := past + more;
      SaidPrefix(past, more);
    }
    assert Tale(max, START, Payload(c) + t, 0, events);
    TalesAreTales(max, START, Payload(c) + t, 0, events);
    TalesAreExact(max, Payload(c) + t, events);
  }
}
