/** When the cuts between reads make a difference, and when they can end the reader in a
    panic: the tales of a stream as a set that can be computed, and conditions on it. */
module FramingCondition {
  import opened Bytes
  import opened Framing
  import opened FramingStream
  import opened FramingExact
  import opened FramingTales
  import opened FramingCuts

  // ------------------------------------------------------------------------ all tales at once

  function Led(e: Event, tales: set<seq<Event>>): set<seq<Event>> {
    set t | t in tales :: [e] + t
  }

  function Refusals(s: bytes, reasons: set<RejectReason>, held: nat): set<seq<Event>> {
    set r | r in reasons && (Fatal(reasons) == AMBIGUOUS && r == Oversize ==> held <= Seek(s, SPACE))
      :: [Reject(FrameError(r, true))]
  }

  /** The tales of `s`, computed. */
  function Tales(max: nat, line: LineState, s: bytes, held: nat): set<seq<Event>>
    decreases |s|, if line.skipping then 2 else 4
  {
    (if Trips(line, s, held) then {[Crash]} else {})
    + if s == [] then if line.index == 0 then {[]} else {}
      else if IsCountStart(s[0]) then CountedTales(max, line, s, held)
      else if line.index > |s| then {}
      else if line.skipping then SkipTales(max, line.index, s, held)
      else LineTales(max, line.index, s, Larger(held, line.index))
  }

  function CountedTales(max: nat, line: LineState, s: bytes, held: nat): set<seq<Event>>
    requires s != []
    decreases |s|, 1
  {
    match OctetFront(max, s)
    case Whole(body, size) => Led(Emit(body), Tales(max, line, s[size..], Minus(held, size)))
    case Cut(Fatal(reasons)) => Refusals(s, reasons, held)
    case Cut(_) => {[]}
  }

  function LineTales(max: nat, index: nat, s: bytes, held: nat): set<seq<Event>>
    requires s != [] && index <= |s|
    decreases |s|, 3
  {
    match LineFrontAt(max, s, SeekFrom(s, NEWLINE, index))
    case Whole(body, size) => Led(Emit(body), Tales(max, START, s[size..], Minus(held, size)))
    case Cut(Fatal(reasons)) => Refusals(s, reasons, held)
    case Cut(Clean) => {[]}
    case Cut(LineTooLong) => Led(Reject(TOO_LONG), Tales(max, LineState(true, index), s, Larger(held, max + 1)))
  }

  function SkipTales(max: nat, index: nat, s: bytes, held: nat): set<seq<Event>>
    requires s != [] && index <= |s|
    decreases |s|, 0
  {
    var n := SeekFrom(s, NEWLINE, index);
    (set j, t | 0 < j < n && held <= j && IsCountStart(s[j]) && t in Tales(max, SKIPPING, s[j..], 0) :: t)
    + if n == |s| then {[]} else AfterTales(max, s[n + 1..], Minus(held, n + 1))
  }

  function AfterTales(max: nat, r: bytes, held: nat): set<seq<Event>>
    decreases |r|, 5
  {
    if r == [] || !IsCountStart(r[0]) then Tales(max, START, r, held)
    else
      (set m: nat, t | Least(held, |r|) <= m <= UpTo(max, r) && t in SearchedTales(max, r, m) :: t)
      + if Decided(max, 0, r) then LineTales(max, 0, r, held) else {}
  }

  /** The tales of `r` with `m` bytes of it searched and more to come. */
  function SearchedTales(max: nat, r: bytes, m: nat): set<seq<Event>>
    decreases |r|, 5, 0
  {
    Tales(max, LineState(false, m), r, m + 1)
  }

  lemma LedBy(e: Event, tales: set<seq<Event>>, events: seq<Event>)
    ensures events in Led(e, tales) <==> Starts(events, e) && events[1..] in tales
  {
    if Starts(events, e) {
      assert events == [e] + events[1..];
    }
  }

  lemma RefusalsAre(s: bytes, reasons: set<RejectReason>, held: nat, events: seq<Event>)
    ensures events in Refusals(s, reasons, held) <==> EndsFatally(s, reasons, held, events)
  {
    if EndsFatally(s, reasons, held, events) {
      assert events == [Reject(FrameError(events[0].error.reason, true))];
    }
  }

  lemma {:induction false} TalesAreTales(max: nat, line: LineState, s: bytes, held: nat, events: seq<Event>)
    ensures events in Tales(max, line, s, held) <==> Tale(max, line, s, held, events)
    decreases |s|, if line.skipping then 2 else 4
  {
    hide CountedTale, SkipTale, LineTale, CountedTales, SkipTales, LineTales;
    if s == [] {
    } else if IsCountStart(s[0]) {
      CountedTalesAre(max, line, s, held, events);
    } else if line.index > |s| {
    } else if line.skipping {
      SkipTalesAre(max, line.index, s, held, events);
    } else {
      LineTalesAre(max, line.index, s, Larger(held, line.index), events);
    }
  }

  lemma {:induction false} CountedTalesAre(max: nat, line: LineState, s: bytes, held: nat, events: seq<Event>)
    requires s != []
    ensures events in CountedTales(max, line, s, held) <==> CountedTale(max, line, s, held, events)
    decreases |s|, 1
  {
    hide OctetFront, Tale, Tales, Led, Refusals;
    match OctetFront(max, s)
    case Whole(body, size) =>
      LedBy(Emit(body), Tales(max, line, s[size..], Minus(held, size)), events);
      if events != [] {
        TalesAreTales(max, line, s[size..], Minus(held, size), events[1..]);
      }
    case Cut(Fatal(reasons)) => RefusalsAre(s, reasons, held, events);
    case Cut(_) =>
  }

  lemma {:induction false} LineTalesAre(max: nat, index: nat, s: bytes, held: nat, events: seq<Event>)
    requires s != [] && index <= |s|
    ensures events in LineTales(max, index, s, held) <==> LineTale(max, index, s, held, events)
    decreases |s|, 3
  {
    hide LineFrontAt, Tale, Tales, Led, Refusals;
    match LineFrontAt(max, s, SeekFrom(s, NEWLINE, index))
    case Whole(body, size) =>
      LedBy(Emit(body), Tales(max, START, s[size..], Minus(held, size)), events);
      if events != [] {
        TalesAreTales(max, START, s[size..], Minus(held, size), events[1..]);
      }
    case Cut(Fatal(reasons)) => RefusalsAre(s, reasons, held, events);
    case Cut(Clean) =>
    case Cut(LineTooLong) =>
      var more := Larger(held, max + 1);
      LedBy(Reject(TOO_LONG), Tales(max, LineState(true, index), s, more), events);
      if events != [] {
        TalesAreTales(max, LineState(true, index), s, more, events[1..]);
      }
  }

  lemma {:induction false} SkipTalesAre(max: nat, index: nat, s: bytes, held: nat, events: seq<Event>)
    requires s != [] && index <= |s|
    ensures events in SkipTales(max, index, s, held) <==> SkipTale(max, index, s, held, events)
    decreases |s|, 0
  {
    hide Tale, Tales, AfterTale, AfterTales, SeekFrom;
    var n := SeekFrom(s, NEWLINE, index);
    forall j | 0 < j < n
      ensures events in Tales(max, SKIPPING, s[j..], 0) <==> Tale(max, SKIPPING, s[j..], 0, events)
    {
      TalesAreTales(max, SKIPPING, s[j..], 0, events);
    }
    if n < |s| {
      AfterTalesAre(max, s[n + 1..], Minus(held, n + 1), events);
    }
  }

  lemma {:induction false} AfterTalesAre(max: nat, r: bytes, held: nat, events: seq<Event>)
    ensures events in AfterTales(max, r, held) <==> AfterTale(max, r, held, events)
    decreases |r|, 5
  {
    hide Tale, Tales, LineTale, LineTales, SeekFrom;
    TalesAreTales(max, START, r, held, events);
    forall m: nat
      ensures events in SearchedTales(max, r, m) <==> Tale(max, LineState(false, m), r, m + 1, events)
    {
      TalesAreTales(max, LineState(false, m), r, m + 1, events);
    }
    if r != [] {
      LineTalesAre(max, 0, r, held, events);
    }
  }

  // -------------------------------------------------------------------- when reads matter

  /** For every stream, the cuts between reads make no difference to any event if and
      only if its set of tales has one member. Without an oversize line that is so if
      and only if no length prefix has a newline before its space. */
  lemma ReadsMatterExactly(max: nat, s: bytes)
    ensures ReadsDoNotMatter(max, s) <==> |Tales(max, START, s, 0)| == 1
    ensures StreamSpec(max, s).ending != LineTooLong ==>
              (|Tales(max, START, s, 0)| == 1 <==> StreamSpec(max, s).ending != AMBIGUOUS)
  {
    hide Tales, Tale, Run, StreamSpec;
    var tales := Tales(max, START, s, 0);
    forall events: seq<Event> ensures events in tales <==> CanGive(max, s, events) {
      TalesAreTales(max, START, s, 0, events);
      TalesAreExact(max, s, events);
    }
    var told := SomeTale(max, s);
    if ReadsDoNotMatter(max, s) {
      forall other | other in tales ensures other == told {
        assert CanGive(max, s, other) && CanGive(max, s, told);
      }
      assert tales == {told};
    }
    if |tales| == 1 {
      OnlyMember(tales, told);
      forall one: seq<bytes>, two: seq<bytes> | Reads(one, s) && Reads(two, s)
        ensures Run(max, FRESH, [], one).events == Run(max, FRESH, [], two).events
      {
        assert CanGive(max, s, Run(max, FRESH, [], one).events);
        assert CanGive(max, s, Run(max, FRESH, [], two).events);
      }
    }
    if StreamSpec(max, s).ending != LineTooLong {
      UnskippedExactly(max, s);
    }
  }

  /** Reading in one piece tells a tale. */
  lemma SomeTale(max: nat, s: bytes) returns (events: seq<Event>)
    ensures CanGive(max, s, events)
  {
    hide Run;
    var chunks := if s == [] then [] else [s];
    if s != [] {
      assert chunks[1..] == [] && Concat([]) == [] && s + [] == s;
      assert Concat(chunks) == s;
    }
    assert Reads(chunks, s);
    events := Run(max, FRESH, [], chunks).events;
  }

  lemma OnlyMember<T>(xs: set<T>, x: T)
    requires |xs| == 1 && x in xs
    ensures xs == {x}
  {
    assert |xs - {x}| == 0;
  }

  // ------------------------------------------------------------------- when the reader panics

  ghost predicate CanCrash(max: nat, s: bytes) {
    exists chunks: seq<bytes> :: Reads(chunks, s) && Crash in Run(max, FRESH, [], chunks).events
  }

  /** Some way of reading a stream ends in a panic if and only if one of its tales does.
      It takes a skipped line: a stream without one is safe in any reads. */
  lemma CrashesExactly(max: nat, s: bytes)
    ensures CanCrash(max, s) <==> exists events :: events in Tales(max, START, s, 0) && Crash in events
    ensures StreamSpec(max, s).ending != LineTooLong ==> !CanCrash(max, s)
  {
    hide Tales, Tale, Run, StreamSpec;
    forall events: seq<Event> ensures events in Tales(max, START, s, 0) <==> CanGive(max, s, events) {
      TalesAreTales(max, START, s, 0, events);
      TalesAreExact(max, s, events);
    }
    forall chunks: seq<bytes> | Reads(chunks, s) && Crash in Run(max, FRESH, [], chunks).events
      ensures Run(max, FRESH, [], chunks).events in Tales(max, START, s, 0)
      ensures StreamSpec(max, s).ending == LineTooLong
    {
      assert CanGive(max, s, Run(max, FRESH, [], chunks).events);
      UnskippedIsSafe(max, chunks);
    }
  }

  lemma UnskippedIsSafe(max: nat, chunks: seq<bytes>)
    ensures StreamSpec(max, Concat(chunks)).ending != LineTooLong ==> Crash !in Run(max, FRESH, [], chunks).events
  {
    hide Run, StreamSpec, Heard, FirstTrouble;
    if StreamSpec(max, Concat(chunks)).ending != LineTooLong {
      RunFollows(max, FRESH, [], chunks);
      assert [] + Concat(chunks) == Concat(chunks);
      AllTold(max, chunks);
    }
  }

  // ----------------------------------------------------------------------------- calm streams

  /** No ambiguous prefix; no digit from 1 to 9 in the part of an oversize line where a
      read may begin, nor right behind it. */
  predicate Calm(max: nat, s: bytes)
    decreases |s|
  {
    if s == [] then true
    else
      match FrontOf(max, s)
      case Whole(_, size) => Calm(max, s[size..])
      case Cut(LineTooLong) =>
        var n := Seek(s, NEWLINE);
        && (forall j | max < j < n :: !IsCountStart(s[j]))
        && (n + 1 < |s| ==> !IsCountStart(s[n + 1]) && Calm(max, s[n + 1..]))
      case Cut(ending) => ending != AMBIGUOUS
  }

  lemma OctetNotTooLong(max: nat, s: bytes)
    ensures OctetFront(max, s) != Cut(LineTooLong)
  {
    hide ValidUtf8, ParseUsize, Seek;
  }

  lemma FrontReasons(max: nat, s: bytes)
    requires s != [] && FrontOf(max, s).Cut? && FrontOf(max, s).ending.Fatal?
    ensures Determinate(FrontOf(max, s).ending)
  {
    hide ValidUtf8, ParseUsize, Seek;
  }

  /** The tale of a calm stream, whatever `held`, and without a panic in it. */
  lemma {:induction false} CalmTale(max: nat, s: bytes, held: nat, other: nat, one: seq<Event>, two: seq<Event>)
    requires Calm(max, s) && Tale(max, START, s, held, one) && Tale(max, START, s, other, two)
    ensures one == two && Crash !in one
    decreases |s|
  {
    hide OctetFront, LineFrontAt, Seek, SeekFrom;
    if s != [] {
      SeekResumes(s, NEWLINE, 0);
      var front := FrontOf(max, s);
      if front.Whole? {
        CalmTale(max, s[front.size..], Minus(held, front.size), Minus(other, front.size), one[1..], two[1..]);
        assert one == [one[0]] + one[1..] && two == [two[0]] + two[1..];
      } else if front.ending.LineTooLong? {
        CalmBehind(max, s, held, one);
        CalmBehind(max, s, other, two);
        CalmLater(max, s, Larger(held, max + 1), Larger(other, max + 1), one[1..], two[1..]);
        assert one == [one[0]] + one[1..] && two == [two[0]] + two[1..];
      } else if front.ending.Fatal? {
        FrontReasons(max, s);
        assert one[0] == two[0];
      }
    }
  }

  lemma {:induction false} CalmLater(max: nat, s: bytes, held: nat, other: nat, one: seq<Event>, two: seq<Event>)
    requires s != [] && FrontOf(max, s) == Cut(LineTooLong) && Calm(max, s)
    requires var n := Seek(s, NEWLINE);
             if n == |s| then one == two == []
             else && Tale(max, START, s[n + 1..], Minus(held, n + 1), one)
                  && Tale(max, START, s[n + 1..], Minus(other, n + 1), two)
    ensures one == two && Crash !in one
    decreases |s|, 0
  {
    hide FrontOf, Seek, Tale;
    var n := Seek(s, NEWLINE);
    if n < |s| {
      NothingIsCalm(max);
      assert n + 1 == |s| ==> s[n + 1..] == [];
      CalmTale(max, s[n + 1..], Minus(held, n + 1), Minus(other, n + 1), one, two);
    }
  }

  lemma NothingIsCalm(max: nat)
    ensures Calm(max, [])
  {
  }

  /** What a tale goes on with behind an oversize line of a calm stream. */
  lemma CalmBehind(max: nat, s: bytes, held: nat, events: seq<Event>)
    requires s != [] && FrontOf(max, s) == Cut(LineTooLong) && Calm(max, s) && Tale(max, START, s, held, events)
    ensures var n := Seek(s, NEWLINE);
            && Starts(events, Reject(TOO_LONG))
            && (n == |s| ==> events[1..] == [])
            && (n < |s| ==> Tale(max, START, s[n + 1..], Minus(Larger(held, max + 1), n + 1), events[1..]))
  {
    hide OctetFront, LineFrontAt, CountedTale, Seek, SeekFrom, Tale, SkipTale;
    OctetNotTooLong(max, s);
    SeekResumes(s, NEWLINE, 0);
    LineIsTale(max, s, held, events);
    SkipIsTale(max, s, Larger(held, max + 1), events[1..]);
    CalmSkip(max, s, Larger(held, max + 1), events[1..]);
  }

  lemma SkipIsTale(max: nat, s: bytes, held: nat, events: seq<Event>)
    requires s != [] && !IsCountStart(s[0])
    ensures Tale(max, SKIPPING, s, held, events) <==> SkipTale(max, 0, s, held, events)
  {
    hide AfterTale, SeekFrom;
  }

  lemma CalmSkip(max: nat, s: bytes, held: nat, events: seq<Event>)
    requires s != [] && FrontOf(max, s) == Cut(LineTooLong) && Calm(max, s)
    requires held > max && SkipTale(max, 0, s, held, events)
    ensures var n := Seek(s, NEWLINE);
            && (n == |s| ==> events == [])
            && (n < |s| ==> Tale(max, START, s[n + 1..], Minus(held, n + 1), events))
  {
    hide OctetFront, LineFrontAt, Seek, SeekFrom, Tale;
    SeekResumes(s, NEWLINE, 0);
    var n := Seek(s, NEWLINE);
    if n < |s| {
      assert s[n + 1..] != [] ==> s[n + 1..][0] == s[n + 1];
    }
  }

  /** On a calm stream, oversize lines and all, the cuts between reads make no
      difference, and none of them ends in a panic. */
  lemma CalmReadsDoNotMatter(max: nat, s: bytes)
    requires Calm(max, s)
    ensures ReadsDoNotMatter(max, s) && !CanCrash(max, s)
  {
    hide Calm, Tale, Run;
    forall one: seq<bytes>, two: seq<bytes> | Reads(one, s) && Reads(two, s)
      ensures Run(max, FRESH, [], one).events == Run(max, FRESH, [], two).events
      ensures Crash !in Run(max, FRESH, [], one).events
    {
      var first, second := Run(max, FRESH, [], one).events, Run(max, FRESH, [], two).events;
      TalesAreExact(max, s, first);
      TalesAreExact(max, s, second);
      assert CanGive(max, s, first) && CanGive(max, s, second);
      CalmTale(max, s, 0, 0, first, second);
    }
  }

  // -------------------------------------------------------------------- a count behind a skip

  /** "aaaa", over a limit of three, its newline, and the first byte of "1 b". */
  const SKIPPED_THEN_ONE: bytes := [0x61, 0x61, 0x61, 0x61, NEWLINE, 0x31]
  const REST_OF_COUNT: bytes := [SPACE, 0x62]
  const TWO_LINES: bytes := [NEWLINE, 0x63, NEWLINE]

  /** The first read: the line is skipped, and the digit behind it searched. */
  lemma FirstCalls()
    ensures DecodeTurn(3, false, FRESH, SKIPPED_THEN_ONE)
            == Turn(Rejected(TOO_LONG), FramerState(None, SKIPPING), SKIPPED_THEN_ONE)
    ensures DecodeTurn(3, false, FramerState(None, SKIPPING), SKIPPED_THEN_ONE)
            == Turn(More, FramerState(None, LineState(false, 1)), [0x31])
  {
    var s := SKIPPED_THEN_ONE;
    SeekFromIs(s, NEWLINE, 0, 4);
    assert s[5..] == [0x31];
    assert SeekFrom([0x31], NEWLINE, 0) == 1;
  }

  lemma FirstRead()
    ensures Drain(3, false, FRESH, SKIPPED_THEN_ONE)
            == Drained([Reject(TOO_LONG)], false, FramerState(None, LineState(false, 1)), [0x31])
  {
    hide DecodeTurn;
    FirstCalls();
  }

  /** The counted frame is read, and the codec's index with it left behind. */
  lemma CountRead(rest: bytes)
    ensures DecodeTurn(3, false, FramerState(None, LineState(false, 1)), [0x31] + REST_OF_COUNT + rest)
            == Turn(Frame([0x62]), FramerState(None, LineState(false, 1)), rest)
  {
    var s := [0x31] + REST_OF_COUNT + rest;
    SeekIs(s, SPACE, 1);
    assert s[..1] == Decimal(1);
    ParseDecimal(1);
    assert s[2..3] == [0x62] && ValidUtf8([0x62]) && s[3..] == rest;
  }

  /** The reads "aaaa\n1" and " b" end the reader in a panic, after its message. */
  lemma PanicsBehindSkip()
    ensures Run(3, FRESH, [], [SKIPPED_THEN_ONE, REST_OF_COUNT]).events
            == [Reject(TOO_LONG), Emit([0x62]), Crash]
    ensures CanCrash(3, SKIPPED_THEN_ONE + REST_OF_COUNT)
  {
    var state, b := FramerState(None, LineState(false, 1)), [0x31] + REST_OF_COUNT;
    CountRead([]);
    assert b + [] == b;
    assert DecodeTurn(3, false, state, []) == Turn(Panic, state, []);
    assert Drain(3, false, state, b).events == [Emit([0x62]), Crash] && Drain(3, false, state, b).closed;
    TwoReads(REST_OF_COUNT);
    hide Run, Drain;
    TwoReadsAre(SKIPPED_THEN_ONE, REST_OF_COUNT);
  }

  lemma LinesRead()
    ensures Drain(3, false, FramerState(None, LineState(false, 1)), TWO_LINES)
            == Drained([Emit([NEWLINE, 0x63])], false, FRESH, [])
  {
    SeekFromIs(TWO_LINES, NEWLINE, 1, 2);
    assert TWO_LINES[..2] == [NEWLINE, 0x63] && TWO_LINES[3..] == [] && ValidUtf8([NEWLINE, 0x63]);
    assert DecodeTurn(3, false, FramerState(None, LineState(false, 1)), TWO_LINES)
        == Turn(Frame([NEWLINE, 0x63]), FRESH, []);
    NothingBuffered(3);
  }

  /** The same with two lines behind: the codec looks for a newline behind the first
      one, and a message has a newline in it. */
  lemma NewlineInMessage()
    ensures Run(3, FRESH, [], [SKIPPED_THEN_ONE, REST_OF_COUNT + TWO_LINES]).events
            == [Reject(TOO_LONG), Emit([0x62]), Emit([NEWLINE, 0x63])]
  {
    hide Run, DecodeTurn;
    var more := REST_OF_COUNT + TWO_LINES;
    CountRead(TWO_LINES);
    LinesRead();
    assert [0x31] + more == [0x31] + REST_OF_COUNT + TWO_LINES;
    TwoReads(more);
    EmptyEof(3, START);
  }

  /** A second read after the first. */
  lemma TwoReads(more: bytes)
    ensures var d := Drain(3, false, FramerState(None, LineState(false, 1)), [0x31] + more);
            Run(3, FRESH, [], [SKIPPED_THEN_ONE, more]).events
            == [Reject(TOO_LONG)] + d.events + if d.closed then [] else Drain(3, true, d.state, d.buffer).events
  {
    hide Run, Drain;
    var state := FramerState(None, LineState(false, 1));
    assert [SKIPPED_THEN_ONE] + [more] == [SKIPPED_THEN_ONE, more];
    ReadNext(3, SKIPPED_THEN_ONE, [more]);
    FirstRead();
    DrainThenRead(3, FRESH, SKIPPED_THEN_ONE, more);
    LastDrain(3, state, [0x31] + more);
  }

  lemma DrainThenRead(max: nat, state: FramerState, b: bytes, more: bytes)
    requires !Drain(max, false, state, b).closed
    ensures var d := Drain(max, false, state, b);
            Run(max, state, b, [more]).events == d.events + Run(max, d.state, d.buffer + more, []).events
  {
    hide Drain;
    assert [more][1..] == [];
  }

  lemma LastDrain(max: nat, state: FramerState, b: bytes)
    ensures var d := Drain(max, false, state, b);
            Run(max, state, b, []).events
            == d.events + if d.closed then [] else Drain(max, true, d.state, d.buffer).events
  {
    hide Drain;
  }

  lemma TwoReadsAre(one: bytes, two: bytes)
    requires one != [] && two != []
    ensures Reads([one, two], one + two)
  {
    assert [one, two][1..] == [two] && [two][1..] == [];
    assert Concat([two]) == two;
  }
}
