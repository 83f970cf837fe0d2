/** What the framer promises about a whole stream, whatever its reads look like. */
module FramingStream {
  import opened Bytes
  import opened Framing

  // ------------------------------------------------- the whole-stream reference

  /** How a stream ends: quietly, with a fatal rejection for one of `reasons`,
      or (as far as this reference follows it) at the first oversize line. */
  datatype Ending = Clean | Fatal(reasons: set<RejectReason>) | LineTooLong

  datatype Transcript = Transcript(messages: seq<bytes>, ending: Ending)

  const QUIET := Transcript([], Clean)

  function Prepend(messages: seq<bytes>, rest: Transcript): Transcript {
    Transcript(messages + rest.messages, rest.ending)
  }

  /** What stands at the front of a stream: a whole frame of `size` bytes
      carrying `body`, or the reason no further frame will come. */
  datatype Front = Whole(body: bytes, size: nat) | Cut(ending: Ending)

  function Body(body: bytes, size: nat): Front {
    if ValidUtf8(body) then Whole(body, size) else Cut(Fatal({InvalidUtf8}))
  }

  /** Section 3.4.1 of RFC 6587, with the length in a prefix shorter than `max`. */
  function OctetFront(max: nat, s: bytes): (f: Front)
    ensures f.Whole? ==> 0 < f.size <= |s|
  {
    var space := Seek(s, SPACE);
    var newline := Seek(s, NEWLINE);
    if space == |s| || space >= max then Cut(if newline < |s| then Fatal({Oversize}) else Clean)
    else if newline < space then Cut(Fatal({InvalidLength, Oversize}))
    else
      match ParseUsize(s[..space])
      case None => Cut(Fatal({InvalidLength}))
      case Some(len) =>
        var body := s[space + 1..];
        if len > max then Cut(if len <= |body| then Fatal({Oversize}) else Clean)
        else if len > |body| then Cut(Clean)
        else Body(body[..len], space + 1 + len)
  }

  /** Section 3.4.2 of RFC 6587, with lines of at most `max` bytes. */
  function LineFront(max: nat, s: bytes): (f: Front)
    requires s != []
    ensures f.Whole? ==> 0 < f.size <= |s|
  {
    LineFrontAt(max, s, Seek(s, NEWLINE))
  }

  /** A line that ends at `newline`, or with the stream if there is none. */
  function LineFrontAt(max: nat, s: bytes, newline: nat): (f: Front)
    requires s != []
    ensures f.Whole? ==> 0 < f.size <= |s|
  {
    if newline < |s| && newline <= max then Body(StripCr(s[..newline]), newline + 1)
    else if |s| > max then Cut(LineTooLong)
    else if s == [CR] then Cut(Clean)
    else Body(StripCr(s), |s|)
  }

  function FrontOf(max: nat, s: bytes): (f: Front)
    requires s != []
    ensures f.Whole? ==> 0 < f.size <= |s|
  {
    if IsCountStart(s[0]) then OctetFront(max, s) else LineFront(max, s)
  }

  /** The messages of a complete stream and how it ends, read in one piece. */
  function StreamSpec(max: nat, s: bytes): Transcript
    decreases |s|
  {
    if s == [] then QUIET
    else
      match FrontOf(max, s)
      case Whole(body, size) => Prepend([body], StreamSpec(max, s[size..]))
      case Cut(ending) => Transcript([], ending)
  }

  /** The same, for a framer part-way through: `s` is what it has buffered
      followed by everything still to arrive. */
  function SpecFrom(max: nat, state: FramerState, s: bytes): Transcript {
    match state.octet
    case Some(Discarding(chars)) => Transcript([], if chars <= |s| then Fatal({Oversize}) else Clean)
    case Some(DiscardingToEol) => Transcript([], if NEWLINE in s then Fatal({Oversize}) else Clean)
    case _ => StreamSpec(max, s)
  }

  // --------------------------------------------------- one decode call, simulated

  /** What the line codec has searched is in the buffer, at the front of a line, and has
      no newline: it could as well start over. */
  predicate Inert(max: nat, index: nat, buffer: bytes) {
    && index <= ReadTo(max, buffer)
    && NEWLINE !in buffer[..index]
    && (index > 0 ==> !IsCountStart(buffer[0]))
  }

  /** The states a framer can be in before its first rejection. */
  predicate InStep(max: nat, state: FramerState, buffer: bytes) {
    && !state.line.skipping
    && (if state.octet.Some? then state.line.index == 0 else Inert(max, state.line.index, buffer))
    && (state.octet == Some(NotDiscarding) ==> buffer != [] && IsCountStart(buffer[0]))
    && (state.octet.Some? && state.octet.value.Discarding? ==> state.octet.value.chars > 0)
  }

  /** A rejection the reference allows as the end of the stream. */
  predicate Allows(ending: Ending, error: FrameError) {
    if error.fatal then ending.Fatal? && error.reason in ending.reasons
    else ending.LineTooLong? && error.reason == Oversize
  }

  /** `turn` accounts for the reference transcript: it emits its next message,
      leaves it as it was, or rejects where it says. */
  ghost predicate Accounts(max: nat, spec: Transcript, turn: Turn, future: bytes) {
    match turn.out
    case Frame(body) => InStep(max, turn.state, turn.rest)
                        && spec == Prepend([body], SpecFrom(max, turn.state, turn.rest + future))
    case More => InStep(max, turn.state, turn.rest) && spec == SpecFrom(max, turn.state, turn.rest + future)
    case Rejected(error) => spec.messages == [] && Allows(spec.ending, error)
    case Panic => false
  }

  lemma CountdownSimulates(max: nat, chars: nat, b: bytes, t: bytes)
    requires chars > 0
    ensures Accounts(max, SpecFrom(max, FramerState(Some(Discarding(chars)), START), b + t),
                     OctetTurn(max, Discarding(chars), START, b), t)
  {
  }

  lemma ToEolSimulates(max: nat, b: bytes, t: bytes)
    ensures Accounts(max, SpecFrom(max, FramerState(Some(DiscardingToEol), START), b + t),
                     OctetTurn(max, DiscardingToEol, START, b), t)
  {
    if NEWLINE in b {
      assert NEWLINE in b + t;
    } else {
      assert [] + t == t;
      assert NEWLINE in b + t <==> NEWLINE in t;
    }
  }

  /** A frame whose bytes are all buffered, at the front of any longer stream. */
  lemma FrameAccounts(max: nat, b: bytes, t: bytes, size: nat, turn: Turn)
    requires 0 < size <= |b| && turn.out.Frame?
    requires turn.state == FRESH && turn.rest == b[size..]
    requires FrontOf(max, b + t) == Whole(turn.out.body, size)
    ensures Accounts(max, StreamSpec(max, b + t), turn, t)
  {
    assert (b + t)[size..] == b[size..] + t;
  }

  /** Once the space is buffered, the length and what follows it are settled. */
  lemma PrefixSettled(b: bytes, t: bytes, space: nat)
    requires space == Seek(b, SPACE) && space < |b|
    ensures Seek(b + t, SPACE) == space
    ensures (b + t)[..space] == b[..space]
    ensures (b + t)[space + 1..] == b[space + 1..] + t
    ensures Seek(b + t, NEWLINE) < space ==> ParseUsize(b[..space]) == None
  {
    SeekAppend(b, t, SPACE);
    var newline := Seek(b + t, NEWLINE);
    if newline < space {
      assert b[..space][newline] == NEWLINE;
    }
  }

  lemma CountedFrameSimulates(max: nat, b: bytes, t: bytes, space: nat, len: nat)
    requires b != [] && IsCountStart(b[0])
    requires space == Seek(b, SPACE) && space < |b| && space < max
    requires ParseUsize(b[..space]) == Some(len) && len <= max && space + 1 + len <= |b|
    ensures Accounts(max, StreamSpec(max, b + t), OctetTurn(max, NotDiscarding, START, b), t)
  {
    PrefixSettled(b, t, space);
    var body := b[space + 1..space + 1 + len];
    assert (b + t)[space + 1..][..len] == body;
    assert OctetFront(max, b + t) == Body(body, space + 1 + len);
    var turn := OctetTurn(max, NotDiscarding, START, b);
    assert turn == Turn(Checked(body), FRESH, b[space + 1 + len..]);
    if ValidUtf8(body) {
      FrameAccounts(max, b, t, space + 1 + len, turn);
    }
  }

  lemma CountedSimulates(max: nat, b: bytes, t: bytes, space: nat)
    requires b != [] && IsCountStart(b[0])
    requires space == Seek(b, SPACE) && space < |b| && space < max
    ensures Accounts(max, StreamSpec(max, b + t), OctetTurn(max, NotDiscarding, START, b), t)
  {
    match ParseUsize(b[..space])
    case None => PrefixSettled(b, t, space);
    case Some(len) =>
      if len <= max && space + 1 + len <= |b| {
        CountedFrameSimulates(max, b, t, space, len);
      } else {
        PrefixSettled(b, t, space);
      }
  }

  lemma UncountedSimulates(max: nat, b: bytes, t: bytes)
    requires b != [] && IsCountStart(b[0])
    requires Seek(b, SPACE) == |b| || Seek(b, SPACE) >= max
    ensures Accounts(max, StreamSpec(max, b + t), OctetTurn(max, NotDiscarding, START, b), t)
  {
    SeekAppend(b, t, SPACE);
    SeekAppend(b, t, NEWLINE);
    if Seek(b, NEWLINE) == |b| && |b| >= max {
      assert [] + t == t;
      assert NEWLINE in b + t <==> NEWLINE in t;
    }
  }

  /** With an inert index a line is read as if from its start. */
  lemma ReadsAfresh(max: nat, eof: bool, index: nat, b: bytes)
    requires Inert(max, index, b)
    ensures var turn, anew := ReadLine(max, eof, index, b), ReadLine(max, eof, 0, b);
            turn == anew || (turn.out == anew.out && turn.out.Rejected? && !turn.out.error.fatal)
    ensures SeekFrom(b, NEWLINE, index) == SeekFrom(b, NEWLINE, 0) == Seek(b, NEWLINE)
  {
    hide Checked, Seek, SeekFrom;
    SeekResumes(b, NEWLINE, index);
    SeekResumes(b, NEWLINE, 0);
  }

  lemma LineSimulates(max: nat, index: nat, b: bytes, t: bytes)
    requires Inert(max, index, b) && (b != [] ==> !IsCountStart(b[0]))
    ensures Accounts(max, StreamSpec(max, b + t), LineTurn(max, false, LineState(false, index), b), t)
  {
    hide SeekFrom;
    ReadsAfresh(max, false, index, b);
    SeekAppend(b, t, NEWLINE);
    var s := b + t;
    var newline := Seek(b, NEWLINE);
    if newline < |b| && newline <= max {
      assert s[..newline] == b[..newline];
      var turn := LineTurn(max, false, LineState(false, index), b);
      if turn.out.Frame? {
        FrameAccounts(max, b, t, newline + 1, turn);
      }
    }
  }

  lemma LineEofSimulates(max: nat, index: nat, b: bytes)
    requires Inert(max, index, b) && (b != [] ==> !IsCountStart(b[0]))
    ensures Accounts(max, StreamSpec(max, b), LineTurn(max, true, LineState(false, index), b), [])
  {
    hide SeekFrom;
    ReadsAfresh(max, true, index, b);
    assert b + [] == b;
    LineSimulates(max, index, b, []);
    if Seek(b, NEWLINE) == |b| {
      assert b[|b|..] == [];
    }
  }

  /** One call of `decode`, on any buffer, is right about every future of the
      stream; one call of `decode_eof` is right about there being none. */
  lemma DecodeSimulates(max: nat, eof: bool, state: FramerState, b: bytes, t: bytes)
    requires InStep(max, state, b)
    requires eof ==> t == []
    ensures Accounts(max, SpecFrom(max, state, b + t), DecodeTurn(max, eof, state, b), t)
  {
    match Enter(state.octet, b)
    case Some(Discarding(chars)) => CountdownSimulates(max, chars, b, t);
    case Some(DiscardingToEol) => ToEolSimulates(max, b, t);
    case Some(NotDiscarding) =>
      if Seek(b, SPACE) < |b| && Seek(b, SPACE) < max {
        CountedSimulates(max, b, t, Seek(b, SPACE));
      } else {
        UncountedSimulates(max, b, t);
      }
    case None =>
      if eof {
        assert b + [] == b;
        LineEofSimulates(max, state.line.index, b);
      } else {
        LineSimulates(max, state.line.index, b, t);
      }
  }

  // ------------------------------------------------------------------- whole runs

  /** What a connection's reader sees of its framer. */
  datatype Event = Emit(body: bytes) | Reject(error: FrameError) | Crash

  /** Result of emptying the buffer: the events in order, and whether the last one
      was the end of the reader. */
  datatype Drained = Drained(events: seq<Event>, closed: bool, state: FramerState, buffer: bytes)

  /** The inner loop of `serve_stream`: decode until nothing more comes. It ends
      on every buffer and state, because a message consumes a byte and an
      oversize line either consumes one or starts being skipped. */
  function Drain(max: nat, eof: bool, state: FramerState, buffer: bytes): Drained
    decreases |buffer|, if state.line.skipping then 0 else 1
  {
    var turn := DecodeTurn(max, eof, state, buffer);
    match turn.out
    case More => Drained([], false, turn.state, turn.rest)
    case Frame(body) =>
      var d := Drain(max, eof, turn.state, turn.rest);
      d.(events := [Emit(body)] + d.events)
    case Rejected(error) =>
      if error.fatal then Drained([Reject(error)], true, turn.state, turn.rest)
      else
        var d := Drain(max, eof, turn.state, turn.rest);
        d.(events := [Reject(error)] + d.events)
    case Panic => Drained([Crash], true, turn.state, turn.rest)
  }

  /** A connection read to its end: the events, and the bytes never looked at. */
  datatype Finished = Finished(events: seq<Event>, buffer: bytes, unread: seq<bytes>)

  /** The outer loop of `serve_stream` over the reads in `chunks`, then end of stream. */
  function Run(max: nat, state: FramerState, buffer: bytes, chunks: seq<bytes>): Finished
    decreases |chunks|
  {
    var d := Drain(max, false, state, buffer);
    if d.closed then Finished(d.events, d.buffer, chunks)
    else if chunks == [] then
      var e := Drain(max, true, d.state, d.buffer);
      Finished(d.events + e.events, e.buffer, [])
    else
      var r := Run(max, d.state, d.buffer + chunks[0], chunks[1..]);
      r.(events := d.events + r.events)
  }

  /** The messages before the first rejection or panic. */
  function Heard(events: seq<Event>): seq<bytes> {
    if events == [] || !events[0].Emit? then [] else [events[0].body] + Heard(events[1..])
  }

  /** The first rejection or panic. */
  function FirstTrouble(events: seq<Event>): Option<Event> {
    if events == [] then None
    else if !events[0].Emit? then Some(events[0])
    else FirstTrouble(events[1..])
  }

  /** The run says what the reference says, up to the first rejection. */
  ghost predicate Follows(spec: Transcript, events: seq<Event>) {
    && Heard(events) == spec.messages
    && match FirstTrouble(events)
       case None => spec.ending == Clean
       case Some(trouble) => trouble.Reject? && Allows(spec.ending, trouble.error)
  }

  lemma {:induction false} HeardAppend(xs: seq<Event>, ys: seq<Event>)
    ensures FirstTrouble(xs).None? ==>
              Heard(xs + ys) == Heard(xs) + Heard(ys) && FirstTrouble(xs + ys) == FirstTrouble(ys)
    ensures FirstTrouble(xs).Some? ==>
              Heard(xs + ys) == Heard(xs) && FirstTrouble(xs + ys) == FirstTrouble(xs)
  {
    if xs == [] {
      assert xs + ys == ys;
    } else {
      assert (xs + ys)[1..] == xs[1..] + ys && (xs + ys)[0] == xs[0];
      HeardAppend(xs[1..], ys);
      if xs[0].Emit? {
        assert [xs[0].body] + (Heard(xs[1..]) + Heard(ys)) == ([xs[0].body] + Heard(xs[1..])) + Heard(ys);
      }
    }
  }

  /** A run that begins quietly and goes on as the reference says. */
  lemma FollowsJoin(xs: seq<Event>, ys: seq<Event>, rest: Transcript)
    requires FirstTrouble(xs).None? && Follows(rest, ys)
    ensures Follows(Prepend(Heard(xs), rest), xs + ys)
  {
    HeardAppend(xs, ys);
  }

  lemma HeardOne(body: bytes)
    ensures Heard([Emit(body)]) == [body] && FirstTrouble([Emit(body)]).None?
  {
  }

  /** A framer that has just asked for more bytes. */
  predicate Waiting(max: nat, state: FramerState, buffer: bytes) {
    && InStep(max, state, buffer)
    && (state.octet.None? ==>
          |buffer| <= max && NEWLINE !in buffer && (buffer != [] ==> !IsCountStart(buffer[0])))
    && (state.octet == Some(NotDiscarding) ==>
          OctetTurn(max, NotDiscarding, START, buffer) == Turn(More, state, buffer))
  }

  lemma MoreMeansWaiting(max: nat, state: FramerState, b: bytes)
    requires InStep(max, state, b)
    requires DecodeTurn(max, false, state, b).out.More?
    ensures var turn := DecodeTurn(max, false, state, b); Waiting(max, turn.state, turn.rest)
  {
    hide ValidUtf8, ParseUsize, Seek, SeekFrom;
    if Enter(state.octet, b).None? {
      ReadsAfresh(max, false, state.line.index, b);
    }
  }

  /** Emptying the buffer follows `spec` to its end, or leaves a waiting framer
      with the rest of it to tell. */
  ghost predicate DrainTells(max: nat, spec: Transcript, d: Drained, future: bytes) {
    if FirstTrouble(d.events).Some? then Follows(spec, d.events)
    else
      && !d.closed
      && Waiting(max, d.state, d.buffer)
      && spec == Prepend(Heard(d.events), SpecFrom(max, d.state, d.buffer + future))
  }

  lemma TellsOneMore(max: nat, body: bytes, spec: Transcript, d: Drained, future: bytes)
    requires DrainTells(max, spec, d, future)
    ensures DrainTells(max, Prepend([body], spec), d.(events := [Emit(body)] + d.events), future)
  {
    hide SpecFrom, Waiting;
    HeardOne(body);
    HeardAppend([Emit(body)], d.events);
  }

  lemma {:induction false} DrainFollows(max: nat, state: FramerState, b: bytes, t: bytes)
    requires InStep(max, state, b)
    ensures DrainTells(max, SpecFrom(max, state, b + t), Drain(max, false, state, b), t)
    decreases |b|
  {
    hide DecodeTurn, SpecFrom, Waiting;
    DecodeSimulates(max, false, state, b, t);
    var turn := DecodeTurn(max, false, state, b);
    if turn.out.Frame? {
      DrainFollows(max, turn.state, turn.rest, t);
      TellsOneMore(max, turn.out.body, SpecFrom(max, turn.state, turn.rest + t),
                   Drain(max, false, turn.state, turn.rest), t);
    } else if turn.out.More? {
      MoreMeansWaiting(max, state, b);
    }
  }

  /** At end of stream a waiting framer releases an unterminated line, reports a
      finished countdown, or has nothing to say. */
  lemma DrainEofFollows(max: nat, state: FramerState, b: bytes)
    requires Waiting(max, state, b)
    ensures Follows(SpecFrom(max, state, b), Drain(max, true, state, b).events)
  {
    hide DecodeTurn, OctetTurn, StreamSpec;
    assert b + [] == b;
    DecodeSimulates(max, true, state, b, []);
    EofTurn(max, state, b);
    var turn := DecodeTurn(max, true, state, b);
    if turn.out.Frame? {
      NothingLeft(max);
      HeardOne(turn.out.body);
      assert turn.rest + [] == [];
      assert Drain(max, true, state, b).events == [Emit(turn.out.body)];
    }
  }

  /** At end of stream a waiting framer releases its last line and is empty, rejects for
      good, or has nothing left that the reference would mention. */
  lemma EofTurn(max: nat, state: FramerState, b: bytes)
    requires Waiting(max, state, b)
    ensures var turn := DecodeTurn(max, true, state, b);
            && (turn.out.Frame? ==> turn.rest == [] && turn.state == FRESH)
            && (turn.out.More? ==> SpecFrom(max, state, b) == QUIET == SpecFrom(max, turn.state, turn.rest))
            && (turn.out.Rejected? ==> turn.out.error.fatal)
  {
    hide ValidUtf8;
  }

  lemma NothingLeft(max: nat)
    ensures Drain(max, true, FRESH, []) == Drained([], false, FRESH, []) && StreamSpec(max, []) == QUIET
  {
  }

  /** For every byte string and every way of cutting it into reads, the reader
      emits the messages of the whole-stream reference and ends as it says, up
      to the first rejection. */
  lemma {:induction false} RunFollows(max: nat, state: FramerState, b: bytes, chunks: seq<bytes>)
    requires InStep(max, state, b)
    ensures Follows(SpecFrom(max, state, b + Concat(chunks)), Run(max, state, b, chunks).events)
    decreases |chunks|
  {
    hide SpecFrom, Drain;
    var t := Concat(chunks);
    DrainFollows(max, state, b, t);
    var d := Drain(max, false, state, b);
    if FirstTrouble(d.events).Some? {
      var later := Run(max, state, b, chunks).events[|d.events|..];
      assert Run(max, state, b, chunks).events == d.events + later;
      HeardAppend(d.events, later);
    } else if chunks == [] {
      assert d.buffer + t == d.buffer;
      DrainEofFollows(max, d.state, d.buffer);
      FollowsJoin(d.events, Drain(max, true, d.state, d.buffer).events, SpecFrom(max, d.state, d.buffer));
    } else {
      var next := d.buffer + chunks[0];
      assert d.buffer + t == next + Concat(chunks[1..]);
      RunFollows(max, d.state, next, chunks[1..]);
      FollowsJoin(d.events, Run(max, d.state, next, chunks[1..]).events,
                  SpecFrom(max, d.state, next + Concat(chunks[1..])));
    }
  }

  /** A stream whose last length prefix has a newline in front of its space: read
      in one piece it is an invalid length, cut in between it is oversize. */
  const AMBIGUOUS := Fatal({InvalidLength, Oversize})

  const INVALID_LENGTH := Reject(FrameError(InvalidLength, true))
  const OVERSIZE := Reject(FrameError(Oversize, true))

  /** Chunk invariance. Two ways of cutting one stream into reads give the same
      messages, and either both are rejected or neither is; the reasons can only
      differ between InvalidLength and Oversize, on an ambiguous prefix. */
  lemma ChunkInvariance(max: nat, one: seq<bytes>, two: seq<bytes>)
    requires Concat(one) == Concat(two)
    ensures var e1 := Run(max, FRESH, [], one).events;
            var e2 := Run(max, FRESH, [], two).events;
            var r1 := FirstTrouble(e1);
            var r2 := FirstTrouble(e2);
            && Heard(e1) == Heard(e2)
            && (r1.Some? <==> r2.Some?)
            && (r1 != r2 ==> StreamSpec(max, Concat(one)).ending == AMBIGUOUS
                             && {r1.value, r2.value} == {INVALID_LENGTH, OVERSIZE})
  {
    hide Run, StreamSpec, Heard, FirstTrouble;
    RunFollows(max, FRESH, [], one);
    RunFollows(max, FRESH, [], two);
    assert [] + Concat(one) == Concat(one);
    EndingReasons(max, Concat(one));
  }

  /** Apart from ambiguous prefixes, the reference names one reason. */
  predicate Determinate(ending: Ending) {
    ending.Fatal? && ending != AMBIGUOUS ==>
      forall r1, r2 | r1 in ending.reasons && r2 in ending.reasons :: r1 == r2
  }

  lemma {:induction false} EndingReasons(max: nat, s: bytes)
    ensures Determinate(StreamSpec(max, s).ending)
    decreases |s|
  {
    if s != [] {
      var front := FrontOf(max, s);
      if front.Whole? {
        EndingReasons(max, s[front.size..]);
      }
    }
  }

  // -------------------------------------------------------------- emission safety

  predicate Deliverable(max: nat, body: bytes) {
    ValidUtf8(body) && |body| <= max
  }

  predicate AllDeliverable(max: nat, events: seq<Event>) {
    forall e | e in events :: e.Emit? ==> Deliverable(max, e.body)
  }

  lemma LineDeliverable(max: nat, eof: bool, index: nat, src: bytes)
    requires index <= ReadTo(max, src)
    ensures var out := ReadLine(max, eof, index, src).out;
            out.Frame? ==> Deliverable(max, out.body)
  {
    hide ValidUtf8, SeekFrom;
  }

  lemma FrameDeliverable(max: nat, eof: bool, state: FramerState, buffer: bytes)
    ensures var out := DecodeTurn(max, eof, state, buffer).out;
            out.Frame? ==> Deliverable(max, out.body)
  {
    hide ValidUtf8, ReadLine, SeekFrom, Seek, ParseUsize;
    if Enter(state.octet, buffer).None? && state.line.index <= ReadTo(max, buffer) {
      var newline := SeekFrom(buffer, NEWLINE, state.line.index);
      if !state.line.skipping {
        LineDeliverable(max, eof, state.line.index, buffer);
      } else if newline < |buffer| {
        LineDeliverable(max, eof, 0, buffer[newline + 1..]);
      }
    }
  }

  lemma {:induction false} DrainDeliverable(max: nat, eof: bool, state: FramerState, buffer: bytes)
    ensures AllDeliverable(max, Drain(max, eof, state, buffer).events)
    decreases |buffer|, if state.line.skipping then 0 else 1
  {
    hide DecodeTurn, Deliverable;
    FrameDeliverable(max, eof, state, buffer);
    var turn := DecodeTurn(max, eof, state, buffer);
    if turn.out.Frame? || (turn.out.Rejected? && !turn.out.error.fatal) {
      DrainDeliverable(max, eof, turn.state, turn.rest);
    }
  }

  /** Emission safety: from any framer state, over any reads and past any number
      of rejections, every message is valid UTF-8 and at most `max` bytes. */
  lemma {:induction false} EmissionSafety(max: nat, state: FramerState, buffer: bytes, chunks: seq<bytes>)
    ensures AllDeliverable(max, Run(max, state, buffer, chunks).events)
    decreases |chunks|
  {
    hide Drain, Deliverable;
    var d := Drain(max, false, state, buffer);
    DrainDeliverable(max, false, state, buffer);
    if !d.closed {
      if chunks == [] {
        DrainDeliverable(max, true, d.state, d.buffer);
      } else {
        EmissionSafety(max, d.state, d.buffer + chunks[0], chunks[1..]);
      }
    }
  }

  // ----------------------------------------------------------- oversize countdown

  /** A countdown over `all`, the bytes that were still to come when it started:
      it discards exactly `chars` of them and then rejects, or they run out first
      and nothing is said. */
  ghost predicate CountsDown(chars: nat, all: bytes, r: Finished) {
    if |all| < chars then r == Finished([], [], [])
    else r.events == [OVERSIZE] && r.buffer + Concat(r.unread) == all[chars..]
  }

  lemma {:induction false} CountdownRun(max: nat, chars: nat, line: LineState, buffer: bytes, chunks: seq<bytes>)
    requires chars > 0
    ensures CountsDown(chars, buffer + Concat(chunks),
                       Run(max, FramerState(Some(Discarding(chars)), line), buffer, chunks))
    decreases |chunks|
  {
    var state := FramerState(Some(Discarding(chars)), line);
    var d := Drain(max, false, state, buffer);
    var all := buffer + Concat(chunks);
    if |buffer| >= chars {
      assert all[chars..] == buffer[chars..] + Concat(chunks);
    } else if chunks == [] {
      assert Drain(max, true, d.state, []) == Drained([], false, d.state, []);
    } else {
      assert d.buffer + chunks[0] == chunks[0];
      CountdownRun(max, chars - |buffer|, line, chunks[0], chunks[1..]);
      assert all[|buffer|..] == Concat(chunks);
      assert |all| >= chars ==> all[chars..] == Concat(chunks)[chars - |buffer|..];
      var r := Run(max, d.state, chunks[0], chunks[1..]);
      assert d.events + r.events == r.events;
    }
  }

  /** A framer that has only seen part of a length, or nothing. */
  predicate AtPrefix(state: FramerState, b: bytes) {
    state == FRESH || (b != [] && state == FramerState(Some(NotDiscarding), START))
  }

  lemma PrefixTurn(max: nat, len: nat, b: bytes, t: bytes, tail: bytes)
    requires max < len <= USIZE_MAX && |Decimal(len)| < max
    requires b + t == Decimal(len) + [SPACE] + tail && b != []
    ensures IsCountStart(b[0])
    ensures OctetTurn(max, NotDiscarding, START, b)
            == if |b| <= |Decimal(len)| then Turn(More, FramerState(Some(NotDiscarding), START), b)
               else Turn(More, FramerState(Some(Discarding(len)), START), b[|Decimal(len)| + 1..])
  {
    var digits := Decimal(len);
    var s := b + t;
    assert forall i | 0 <= i < |b| && i < |digits| :: b[i] == s[i] == digits[i];
    if |b| <= |digits| {
      assert Seek(b, SPACE) == |b| && Seek(b, NEWLINE) == |b|;
    } else {
      assert b[|digits|] == s[|digits|] == SPACE;
      SeekIs(b, SPACE, |digits|);
      assert b[..|digits|] == digits;
      ParseDecimal(len);
    }
  }

  /** Oversize countdown: a length over the limit, however it and the bytes after
      it arrive, makes the reader discard exactly that many bytes and then reject;
      none of them is ever part of a message. */
  lemma {:induction false} OversizeCountdown(max: nat, len: nat, state: FramerState, b: bytes,
                                             chunks: seq<bytes>, tail: bytes)
    requires max < len <= USIZE_MAX && |Decimal(len)| < max
    requires b + Concat(chunks) == Decimal(len) + [SPACE] + tail
    requires AtPrefix(state, b)
    ensures CountsDown(len, tail, Run(max, state, b, chunks))
    decreases |chunks|
  {
    hide OctetTurn, LineTurn, CountsDown;
    var all := b + Concat(chunks);
    var digits := |Decimal(len)|;
    var d := Drain(max, false, state, b);
    if b != [] {
      PrefixTurn(max, len, b, Concat(chunks), tail);
    } else {
      assert LineTurn(max, false, START, []) == Turn(More, FRESH, []) by { EmptyTurn(max); }
    }
    if |b| <= digits {
      assert |all| > digits && chunks != [];
      assert (b + chunks[0]) + Concat(chunks[1..]) == all;
      OversizeCountdown(max, len, d.state, b + chunks[0], chunks[1..], tail);
      var r := Run(max, d.state, b + chunks[0], chunks[1..]);
      assert d.events + r.events == r.events;
    } else {
      var rest := b[digits + 1..];
      assert all[digits + 1..] == rest + Concat(chunks);
      assert all[digits + 1..] == tail;
      CountdownResumed(max, len, rest, chunks);
      var counting := FramerState(Some(Discarding(len)), START);
      assert d == Drained([], false, counting, rest);
      var r := Resumed(max, counting, rest, chunks);
      assert d.events + r.events == r.events;
      assert Run(max, state, b, chunks) == r;
    }
  }

  lemma EmptyTurn(max: nat)
    ensures LineTurn(max, false, START, []) == Turn(More, FRESH, [])
  {
  }

  /** The countdown as it goes on after the call that started it. */
  function Resumed(max: nat, state: FramerState, buffer: bytes, chunks: seq<bytes>): Finished {
    if chunks == [] then
      var e := Drain(max, true, state, buffer);
      Finished(e.events, e.buffer, [])
    else Run(max, state, buffer + chunks[0], chunks[1..])
  }

  lemma CountdownResumed(max: nat, len: nat, rest: bytes, chunks: seq<bytes>)
    requires len > 0
    ensures CountsDown(len, rest + Concat(chunks),
                       Resumed(max, FramerState(Some(Discarding(len)), START), rest, chunks))
  {
    if chunks != [] {
      CountdownRun(max, len, START, rest + chunks[0], chunks[1..]);
      assert (rest + chunks[0]) + Concat(chunks[1..]) == rest + Concat(chunks);
    } else {
      assert rest + Concat(chunks) == rest;
    }
  }
}
