/** Exactly how far the framer's results depend on the cuts between reads. */
module FramingExact {
  import opened Bytes
  import opened Framing
  import opened FramingStream

  // ------------------------------------------------------- a fatal rejection is the end

  /** The reader ends here: at a fatal rejection, or because it panics. */
  predicate Final(e: Event) {
    e.Crash? || (e.Reject? && e.error.fatal)
  }

  /** Nothing follows the end of the reader. */
  predicate FatalLast(events: seq<Event>) {
    forall j | 0 <= j < |events| - 1 :: !Final(events[j])
  }

  predicate NoFatal(events: seq<Event>) {
    forall e | e in events :: !Final(e)
  }

  lemma {:induction false} DrainFatalLast(max: nat, eof: bool, state: FramerState, buffer: bytes)
    ensures var d := Drain(max, eof, state, buffer);
            FatalLast(d.events) && (!d.closed ==> NoFatal(d.events))
    decreases |buffer|, if state.line.skipping then 0 else 1
  {
    hide DecodeTurn;
    var turn := DecodeTurn(max, eof, state, buffer);
    if turn.out.Frame? || (turn.out.Rejected? && !turn.out.error.fatal) {
      DrainFatalLast(max, eof, turn.state, turn.rest);
    }
  }

  lemma {:induction false} RunFatalLast(max: nat, state: FramerState, buffer: bytes, chunks: seq<bytes>)
    ensures FatalLast(Run(max, state, buffer, chunks).events)
    decreases |chunks|
  {
    hide Drain;
    var d := Drain(max, false, state, buffer);
    DrainFatalLast(max, false, state, buffer);
    if !d.closed {
      if chunks == [] {
        DrainFatalLast(max, true, d.state, d.buffer);
      } else {
        RunFatalLast(max, d.state, d.buffer + chunks[0], chunks[1..]);
      }
    }
  }

  function Emits(messages: seq<bytes>): seq<Event> {
    seq(|messages|, i requires 0 <= i < |messages| => Emit(messages[i]))
  }

  /** Unless a line was skipped, the messages and the first rejection are everything. */
  lemma {:induction false} EventsDetermined(events: seq<Event>)
    requires FatalLast(events)
    requires FirstTrouble(events).Some? ==> Final(FirstTrouble(events).value)
    ensures var r := FirstTrouble(events);
            events == Emits(Heard(events)) + if r.Some? then [r.value] else []
  {
    if events != [] && events[0].Emit? {
      EventsDetermined(events[1..]);
      assert Emits(Heard(events)) == [events[0]] + Emits(Heard(events[1..]));
    } else if events != [] {
      assert |events| == 1;
    }
  }

  // ---------------------------------------------------------- where a prefix is ambiguous

  /** Where the offending newline of an ambiguous stream ends. */
  function AmbiguousAt(max: nat, s: bytes): (k: nat)
    ensures k <= |s|
    decreases |s|
  {
    if s == [] then 0
    else
      match FrontOf(max, s)
      case Whole(_, size) => size + AmbiguousAt(max, s[size..])
      case Cut(_) => if Seek(s, NEWLINE) < |s| then Seek(s, NEWLINE) + 1 else 0
  }

  /** A whole frame decodes the same from any buffer that holds all of it. */
  lemma CountedDecodes(max: nat, s: bytes, k: nat)
    requires s != [] && IsCountStart(s[0]) && OctetFront(max, s).Whole? && OctetFront(max, s).size <= k <= |s|
    ensures var front := OctetFront(max, s);
            DecodeTurn(max, false, FRESH, s[..k]) == Turn(Frame(front.body), FRESH, s[..k][front.size..])
  {
    hide ValidUtf8, ParseUsize;
    var space := Seek(s, SPACE);
    var b := s[..k];
    assert s[space] == SPACE && forall i | 0 <= i < space :: s[i] != SPACE;
    assert forall i | 0 <= i < k :: b[i] == s[i];
    SeekIs(b, SPACE, space);
    assert b[..space] == s[..space];
    var len := ParseUsize(s[..space]).value;
    assert s[space + 1..][..len] == b[space + 1..space + 1 + len];
  }

  lemma LineDecodes(max: nat, s: bytes, k: nat)
    requires s != [] && !IsCountStart(s[0]) && LineFront(max, s).Whole?
    requires LineFront(max, s).size < |s| && LineFront(max, s).size <= k <= |s|
    ensures var front := LineFront(max, s);
            DecodeTurn(max, false, FRESH, s[..k]) == Turn(Frame(front.body), FRESH, s[..k][front.size..])
  {
    hide ValidUtf8;
    var newline := Seek(s, NEWLINE);
    var b := s[..k];
    assert newline < |s|;
    assert forall i | 0 <= i < k :: b[i] == s[i];
    SeekIs(b, NEWLINE, newline);
    assert b[..newline] == s[..newline];
  }

  lemma FrontDecodes(max: nat, s: bytes, k: nat)
    requires s != [] && FrontOf(max, s).Whole? && FrontOf(max, s).size < |s| && FrontOf(max, s).size <= k <= |s|
    ensures var front := FrontOf(max, s);
            DecodeTurn(max, false, FRESH, s[..k]) == Turn(Frame(front.body), FRESH, s[..k][front.size..])
  {
    hide DecodeTurn, OctetFront, LineFront;
    if IsCountStart(s[0]) {
      CountedDecodes(max, s, k);
    } else {
      LineDecodes(max, s, k);
    }
  }

  lemma AmbiguousFront(max: nat, s: bytes)
    requires s != [] && FrontOf(max, s) == Cut(AMBIGUOUS)
    ensures DecodeTurn(max, false, FRESH, s).out == FatalError(InvalidLength)
    ensures 0 < AmbiguousAt(max, s)
    ensures DecodeTurn(max, false, FRESH, s[..AmbiguousAt(max, s)]).out == FatalError(Oversize)
  {
    hide ValidUtf8;
    var space, newline := Seek(s, SPACE), Seek(s, NEWLINE);
    assert IsCountStart(s[0]) && newline < space < |s| && space < max;
    assert s[..space][newline] == NEWLINE;
    var b := s[..newline + 1];
    assert forall i | 0 <= i < |b| :: b[i] == s[i];
    SeekIs(b, NEWLINE, newline);
    assert Seek(b, SPACE) == |b|;
  }

  predicate RejectedAs(d: Drained, reason: RejectReason) {
    d.closed && FirstTrouble(d.events) == Some(Reject(FrameError(reason, true)))
  }

  lemma RejectsAtOnce(max: nat, b: bytes, reason: RejectReason)
    requires DecodeTurn(max, false, FRESH, b).out == FatalError(reason)
    ensures RejectedAs(Drain(max, false, FRESH, b), reason)
  {
    hide DecodeTurn;
  }

  lemma RejectsAfterOne(max: nat, b: bytes, body: bytes, rest: bytes, reason: RejectReason)
    requires DecodeTurn(max, false, FRESH, b) == Turn(Frame(body), FRESH, rest)
    requires RejectedAs(Drain(max, false, FRESH, rest), reason)
    ensures RejectedAs(Drain(max, false, FRESH, b), reason)
  {
    hide DecodeTurn;
    var d := Drain(max, false, FRESH, rest);
    assert ([Emit(body)] + d.events)[1..] == d.events;
  }

  /** An ambiguous stream is an invalid length in one piece and oversize when it is cut
      behind the newline. */
  lemma {:induction false} Diverges(max: nat, s: bytes)
    requires StreamSpec(max, s).ending == AMBIGUOUS
    ensures RejectedAs(Drain(max, false, FRESH, s), InvalidLength)
    ensures RejectedAs(Drain(max, false, FRESH, s[..AmbiguousAt(max, s)]), Oversize)
    decreases |s|
  {
    hide DecodeTurn, FrontOf, RejectedAs;
    var k := AmbiguousAt(max, s);
    match FrontOf(max, s)
    case Cut(_) =>
      AmbiguousFront(max, s);
      RejectsAtOnce(max, s, InvalidLength);
      RejectsAtOnce(max, s[..k], Oversize);
    case Whole(body, size) =>
      var later := s[size..];
      Diverges(max, later);
      assert later != [];
      FrontDecodes(max, s, |s|);
      FrontDecodes(max, s, k);
      assert s[..|s|] == s && s[..k][size..] == later[..k - size];
      RejectsAfterOne(max, s, body, later, InvalidLength);
      RejectsAfterOne(max, s[..k], body, later[..k - size], Oversize);
  }

  lemma RunOfOne(max: nat, s: bytes, chunks: seq<bytes>, reason: RejectReason)
    requires RejectedAs(Drain(max, false, FRESH, s), reason)
    ensures FirstTrouble(Run(max, FRESH, [], [s] + chunks).events) == Some(Reject(FrameError(reason, true)))
  {
    hide Drain;
    NothingBuffered(max);
    var all := [s] + chunks;
    assert all[0] == s && all[1..] == chunks && [] + s == s;
    var r := Run(max, FRESH, s, chunks);
    assert [] + r.events == r.events;
  }

  lemma NothingBuffered(max: nat)
    ensures Drain(max, false, FRESH, []) == Drained([], false, FRESH, [])
  {
  }

  // ------------------------------------------------------------------- the exact condition

  /** A way of reading `s`: no read is empty. */
  predicate Reads(chunks: seq<bytes>, s: bytes) {
    Concat(chunks) == s && forall c | c in chunks :: c != []
  }

  /** Every way of cutting the stream into reads gives the same events. */
  ghost predicate ReadsDoNotMatter(max: nat, s: bytes) {
    forall one: seq<bytes>, two: seq<bytes> | Reads(one, s) && Reads(two, s) ::
      Run(max, FRESH, [], one).events == Run(max, FRESH, [], two).events
  }

  /** The cut that makes the difference is neither in front nor behind. */
  lemma CutInside(max: nat, s: bytes, k: nat)
    requires k <= |s|
    requires RejectedAs(Drain(max, false, FRESH, s), InvalidLength)
    requires RejectedAs(Drain(max, false, FRESH, s[..k]), Oversize)
    ensures 0 < k < |s|
  {
    hide Drain;
    NothingBuffered(max);
    assert s[..0] == [] && s[..|s|] == s;
  }

  lemma AmbiguousReadsMatter(max: nat, s: bytes)
    requires StreamSpec(max, s).ending == AMBIGUOUS
    ensures !ReadsDoNotMatter(max, s)
  {
    hide Run, StreamSpec, RejectedAs, Drain;
    var k := AmbiguousAt(max, s);
    Diverges(max, s);
    CutInside(max, s, k);
    RunOfOne(max, s, [], InvalidLength);
    RunOfOne(max, s[..k], [s[k..]], Oversize);
    var one, two := [s] + [], [s[..k]] + [s[k..]];
    assert one[1..] == [] && Concat(one) == s;
    assert two[1..] == [s[k..]] && [s[k..]][1..] == [];
    assert Concat([s[k..]]) == s[k..];
    assert Concat(two) == s;
    assert Reads(one, s) && Reads(two, s);
    assert Run(max, FRESH, [], one).events != Run(max, FRESH, [], two).events;
  }

  /** As long as no line is over the limit, the cuts between reads make no difference
      to any event exactly when no length prefix has a newline before its space. */
  lemma UnskippedExactly(max: nat, s: bytes)
    requires StreamSpec(max, s).ending != LineTooLong
    ensures ReadsDoNotMatter(max, s) <==> StreamSpec(max, s).ending != AMBIGUOUS
  {
    hide Run, StreamSpec, Heard, FirstTrouble, Emits;
    if StreamSpec(max, s).ending == AMBIGUOUS {
      AmbiguousReadsMatter(max, s);
    } else {
      forall one: seq<bytes>, two: seq<bytes> | Reads(one, s) && Reads(two, s)
        ensures Run(max, FRESH, [], one).events == Run(max, FRESH, [], two).events
      {
        ChunkInvariance(max, one, two);
        AllTold(max, one);
        AllTold(max, two);
      }
    }
  }

  lemma AllTold(max: nat, chunks: seq<bytes>)
    requires StreamSpec(max, Concat(chunks)).ending != LineTooLong
    ensures var events := Run(max, FRESH, [], chunks).events; var r := FirstTrouble(events);
            events == Emits(Heard(events)) + if r.Some? then [r.value] else []
  {
    hide Run, StreamSpec, Heard, FirstTrouble, Emits;
    RunFollows(max, FRESH, [], chunks);
    assert [] + Concat(chunks) == Concat(chunks);
    RunFatalLast(max, FRESH, [], chunks);
    EventsDetermined(Run(max, FRESH, [], chunks).events);
  }

  /** "1", a newline and a space. */
  const SPLIT: bytes := [0x31, NEWLINE, SPACE]

  /** Ambiguous streams exist: this one is an invalid length in one read, and oversize
      in two. */
  lemma SplitPrefixDependsOnReads()
    ensures StreamSpec(3, SPLIT).ending == AMBIGUOUS && !ReadsDoNotMatter(3, SPLIT)
  {
    SeekIs(SPLIT, SPACE, 2);
    SeekIs(SPLIT, NEWLINE, 1);
    AmbiguousReadsMatter(3, SPLIT);
  }

  // --------------------------------------------------------------- after a skipped line

  /** "aaa", over a limit of two, and "1 b\n", the rest of the same line. */
  const LONG: bytes := [0x61, 0x61, 0x61]
  const TAIL: bytes := [0x31, SPACE, 0x62, NEWLINE]

  const TOO_LONG := FrameError(Oversize, false)

  lemma SkipWhole()
    ensures Drain(2, false, FRESH, LONG + TAIL) == Drained([Reject(TOO_LONG)], false, FRESH, [])
  {
    var s := LONG + TAIL;
    SeekIs(s, NEWLINE, 6);
    var skipping := FramerState(None, SKIPPING);
    assert DecodeTurn(2, false, FRESH, s) == Turn(Rejected(TOO_LONG), skipping, s);
    assert s[7..] == [];
    assert DecodeTurn(2, false, skipping, s) == Turn(More, FRESH, []);
  }

  lemma SkipFirst()
    ensures Drain(2, false, FRESH, LONG) == Drained([Reject(TOO_LONG)], false, FramerState(None, SKIPPING), [])
  {
    var skipping := FramerState(None, SKIPPING);
    assert Seek(LONG, NEWLINE) == 3;
    assert DecodeTurn(2, false, FRESH, LONG) == Turn(Rejected(TOO_LONG), skipping, LONG);
    assert DecodeTurn(2, false, skipping, LONG) == Turn(More, skipping, []);
  }

  lemma TailDecodes()
    ensures Drain(2, false, FramerState(None, SKIPPING), TAIL) == Drained([Emit([0x62])], false, FRESH, [])
  {
    var skipping := FramerState(None, SKIPPING);
    SeekIs(TAIL, SPACE, 1);
    assert TAIL[..1] == Decimal(1);
    ParseDecimal(1);
    assert TAIL[2..3] == [0x62] && ValidUtf8([0x62]);
    assert TAIL[3..] == [NEWLINE];
    assert DecodeTurn(2, false, skipping, TAIL) == Turn(Frame([0x62]), skipping, [NEWLINE]);
    SeekIs([NEWLINE], NEWLINE, 0);
    assert [NEWLINE][1..] == [];
    assert DecodeTurn(2, false, skipping, [NEWLINE]) == Turn(More, FRESH, []);
  }

  lemma LongInOnePiece()
    ensures Run(2, FRESH, [], [LONG + TAIL]).events == [Reject(TOO_LONG)]
  {
    SkipWhole();
    NothingBuffered(2);
    assert Drain(2, true, FRESH, []) == Drained([], false, FRESH, []);
    hide Drain;
    var s := LONG + TAIL;
    assert [s][1..] == [] && [] + s == s;
    assert Run(2, FRESH, s, []).events == [Reject(TOO_LONG)] + [];
  }

  lemma TailAlone()
    ensures Run(2, FramerState(None, SKIPPING), TAIL, []).events == [Emit([0x62])]
  {
    TailDecodes();
    assert Drain(2, true, FRESH, []) == Drained([], false, FRESH, []);
    hide Drain;
    assert [Emit([0x62])] + [] == [Emit([0x62])];
  }

  lemma LongInTwoPieces()
    ensures Run(2, FRESH, [], [LONG, TAIL]).events == [Reject(TOO_LONG), Emit([0x62])]
  {
    SkipFirst();
    TailAlone();
    NothingBuffered(2);
    hide Drain;
    assert [LONG, TAIL][1..] == [TAIL] && [TAIL][1..] == [];
    assert [] + LONG == LONG && [] + TAIL == TAIL;
    var rest := Run(2, FRESH, LONG, [TAIL]).events;
    assert rest == [Reject(TOO_LONG)] + [Emit([0x62])];
    assert [] + rest == rest;
  }

  /** Beyond an oversize line the cuts do matter: read in one piece this line is
      skipped; cut before a digit, the rest of it is read as a counted frame. */
  lemma SkippedLineDependsOnReads()
    ensures Run(2, FRESH, [], [LONG + TAIL]).events == [Reject(TOO_LONG)]
    ensures Run(2, FRESH, [], [LONG, TAIL]).events == [Reject(TOO_LONG), Emit([0x62])]
    ensures !ReadsDoNotMatter(2, LONG + TAIL)
  {
    hide Run;
    LongInOnePiece();
    LongInTwoPieces();
    var one, two := [LONG + TAIL], [LONG, TAIL];
    assert one[1..] == [] && two[1..] == [TAIL] && [TAIL][1..] == [];
    assert Concat([TAIL]) == TAIL;
    assert Concat(one) == LONG + TAIL == Concat(two);
    assert Reads(one, LONG + TAIL) && Reads(two, LONG + TAIL);
  }
}
