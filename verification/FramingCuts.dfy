/** Every tale of a stream is told by some way of cutting it into reads. */
module FramingCuts {
  import opened Bytes
  import opened Framing
  import opened FramingStream
  import opened FramingExact
  import opened FramingTales

  /** A first buffer and the reads after it. */
  datatype Cuts = Cuts(first: bytes, rest: seq<bytes>)

  /** `c` is a way of reading `s` that begins with at least `held` bytes, or all. */
  predicate Fits(c: Cuts, s: bytes, held: nat) {
    && c.first + Concat(c.rest) == s
    && (|c.first| >= held || c.rest == [])
    && (forall x | x in c.rest :: x != [])
  }

  lemma AllAtOnce(s: bytes, held: nat)
    ensures Fits(Cuts(s, []), s, held)
  {
    assert s + [] == s;
  }

  /** Cut once, at `k`. */
  lemma InTwo(s: bytes, k: nat, held: nat) returns (c: Cuts)
    requires k <= |s| && (held <= k || k == |s|)
    ensures Fits(c, s, held) && c.first == s[..k]
  {
    if k == |s| {
      c := Cuts(s, []);
      AllAtOnce(s, held);
      assert s[..k] == s;
    } else {
      c := Cuts(s[..k], [s[k..]]);
      assert c.rest[1..] == [] && Concat(c.rest) == s[k..];
    }
  }

  // ----------------------------------------------------------------- runs, from the first call on

  /** The events of a run whose first call has come to `turn`. */
  function Thereafter(max: nat, turn: Turn, rest: seq<bytes>): seq<Event> {
    if turn.out.More? then
      if rest == [] then Drain(max, true, turn.state, turn.rest).events
      else Run(max, turn.state, turn.rest + rest[0], rest[1..]).events
    else Say(turn, if Ends(turn) then [] else Run(max, turn.state, turn.rest, rest).events)
  }

  lemma RunIsThereafter(max: nat, state: FramerState, first: bytes, rest: seq<bytes>)
    ensures Run(max, state, first, rest).events == Thereafter(max, DecodeTurn(max, false, state, first), rest)
  {
    hide DecodeTurn;
    var turn, d := DecodeTurn(max, false, state, first), Drain(max, false, state, first);
    if turn.out.More? {
      assert d.events == [];
      if rest != [] {
        var r := Run(max, turn.state, turn.rest + rest[0], rest[1..]);
        assert d.events + r.events == r.events;
      } else {
        var e := Drain(max, true, turn.state, turn.rest);
        assert d.events + e.events == e.events;
      }
    } else if !Ends(turn) {
      ThereafterLater(max, turn, rest, d);
    }
  }

  lemma ThereafterLater(max: nat, turn: Turn, rest: seq<bytes>, d: Drained)
    requires !turn.out.More? && !Ends(turn)
    requires var later := Drain(max, false, turn.state, turn.rest);
             d == later.(events := Say(turn, []) + later.events)
    ensures Say(turn, Run(max, turn.state, turn.rest, rest).events)
            == if d.closed then d.events
               else if rest == [] then d.events + Drain(max, true, d.state, d.buffer).events
               else d.events + Run(max, d.state, d.buffer + rest[0], rest[1..]).events
  {
    hide Drain;
  }

  // -------------------------------------------------------------------------------- any tale

  /** What a tale asks of the line codec's state to be reachable. */
  predicate Plausible(max: nat, line: LineState, s: bytes, held: nat) {
    && line.index <= max
    && (line.skipping && line.index > 0 ==> |s| > max && held > max && !IsCountStart(s[0]))
  }

  /** Every tale is told by some way of reading, beginning with at least `held` bytes. */
  lemma {:induction false} Realize(max: nat, line: LineState, s: bytes, held: nat, events: seq<Event>)
    returns (c: Cuts)
    requires Plausible(max, line, s, held) && Tale(max, line, s, held, events)
    ensures Fits(c, s, held) && (s != [] && line.index == 0 ==> c.first != [])
    ensures Run(max, FramerState(None, line), c.first, c.rest).events == events
    decreases |s|, if line.skipping then 2 else 4
  {
    hide Run, CountedTale, SkipTale, LineTale, LineTurn, ReadLine, Fits;
    if Trips(line, s, held) && events == [Crash] {
      c := RealizeTrip(max, line, s, held);
    } else if s == [] {
      c := Cuts([], []);
      AllAtOnce([], held);
      EmptyRun(max, line);
    } else if IsCountStart(s[0]) {
      c := RealizeCounted(max, line, s, held, events);
    } else if line.skipping {
      c := RealizeSkip(max, line.index, s, held, events);
    } else {
      c := RealizeLine(max, line.index, s, Larger(held, line.index), events);
      LineFirst(max, line.index, s, Larger(held, line.index), c);
      LooserFit(c, s, Larger(held, line.index), held);
    }
  }

  lemma LooserFit(c: Cuts, s: bytes, held: nat, less: nat)
    requires Fits(c, s, held) && less <= held
    ensures Fits(c, s, less)
  {
  }

  lemma EmptyRun(max: nat, line: LineState)
    requires line.index == 0
    ensures Run(max, FramerState(None, line), [], []).events == []
  {
  }

  /** A buffer too short for what has been searched. */
  lemma RealizeTrip(max: nat, line: LineState, s: bytes, held: nat) returns (c: Cuts)
    requires line.index <= max && Trips(line, s, held)
    ensures Fits(c, s, held)
    ensures Run(max, FramerState(None, line), c.first, c.rest).events == [Crash]
  {
    hide Run, ReadLine, OctetTurn;
    var k := if s != [] && IsCountStart(s[0]) then 0 else Least(held, |s|);
    c := InTwo(s, k, held);
    assert c.first != [] ==> c.first[0] == s[0];
    RunIsThereafter(max, FramerState(None, line), c.first, c.rest);
  }

  /** A line in front: the first call is the line codec's. */
  lemma LineFirst(max: nat, index: nat, s: bytes, held: nat, c: Cuts)
    requires s != [] && !IsCountStart(s[0]) && index <= |s| && index <= held && index <= max
    requires Fits(c, s, held) && c.first != []
    ensures index <= ReadTo(max, c.first)
    ensures Run(max, FramerState(None, LineState(false, index)), c.first, c.rest).events
            == Thereafter(max, ReadLine(max, false, index, c.first), c.rest)
  {
    hide Run, ReadLine, OctetTurn, Thereafter;
    assert c.first[0] == s[0];
    assert c.rest == [] ==> c.first == s;
    RunIsThereafter(max, FramerState(None, LineState(false, index)), c.first, c.rest);
  }

  // -------------------------------------------------------------------------- counted frames

  /** A whole frame at the front decodes at once from a buffer that holds it. */
  lemma WholeDecodes(max: nat, line: LineState, s: bytes, k: nat)
    requires s != [] && IsCountStart(s[0]) && OctetFront(max, s).Whole? && OctetFront(max, s).size <= k <= |s|
    ensures var front := OctetFront(max, s);
            DecodeTurn(max, false, FramerState(None, line), s[..k])
            == Turn(Frame(front.body), FramerState(None, line), s[front.size..k])
  {
    hide OctetFront, OctetTurn, LineTurn;
    var b, t := s[..k], s[k..];
    assert b + t == s && b[0] == s[0];
    OctetFrontTurn(max, line, b, t);
    assert b[OctetFront(max, s).size..] == s[OctetFront(max, s).size..k];
  }

  /** An ambiguous prefix cut between its newline and its space. */
  lemma CutAmbiguous(max: nat, line: LineState, s: bytes, k: nat)
    requires s != [] && IsCountStart(s[0]) && OctetFront(max, s) == Cut(AMBIGUOUS)
    requires Seek(s, NEWLINE) < k <= Seek(s, SPACE)
    ensures DecodeTurn(max, false, FramerState(None, line), s[..k]).out == FatalError(Oversize)
  {
    hide ValidUtf8, ParseUsize, Seek, LineTurn;
    var b, newline := s[..k], Seek(s, NEWLINE);
    assert forall i | 0 <= i < k :: b[i] == s[i];
    SeekIs(b, NEWLINE, newline);
    assert Seek(b, SPACE) == |b|;
  }

  lemma AmbiguousShape(max: nat, s: bytes)
    requires OctetFront(max, s) == Cut(AMBIGUOUS)
    ensures Seek(s, NEWLINE) < Seek(s, SPACE) < |s|
  {
    hide ValidUtf8, ParseUsize, Seek;
  }

  lemma FatalReasons(max: nat, s: bytes)
    requires OctetFront(max, s).Cut? && OctetFront(max, s).ending.Fatal?
    ensures Determinate(OctetFront(max, s).ending)
  {
    hide ValidUtf8, ParseUsize, Seek;
  }

  lemma {:induction false} RealizeCounted(max: nat, line: LineState, s: bytes, held: nat, events: seq<Event>)
    returns (c: Cuts)
    requires s != [] && IsCountStart(s[0]) && Plausible(max, line, s, held)
    requires CountedTale(max, line, s, held, events)
    ensures Fits(c, s, held) && c.first != []
    ensures Run(max, FramerState(None, line), c.first, c.rest).events == events
    decreases |s|, 1
  {
    hide OctetFront, Run, Tale, Seek, Fits;
    match OctetFront(max, s)
    case Whole(body, size) =>
      var later := Realize(max, line, s[size..], Minus(held, size), events[1..]);
      c := FrameFirst(max, line, s, held, later);
      assert events == [Emit(body)] + events[1..];
    case Cut(ending) =>
      if ending == AMBIGUOUS && events[0].error.reason == Oversize {
        c := CutPrefix(max, line, s, held);
        assert events == [events[0]];
      } else {
        c := Cuts(s, []);
        AllAtOnce(s, held);
        WholeCounted(max, line, s, held, events);
      }
  }

  /** A counted frame read together with what comes first behind it. */
  lemma FrameFirst(max: nat, line: LineState, s: bytes, held: nat, later: Cuts) returns (c: Cuts)
    requires s != [] && IsCountStart(s[0]) && OctetFront(max, s).Whole?
    requires var size := OctetFront(max, s).size; Fits(later, s[size..], Minus(held, size))
    ensures Fits(c, s, held) && c.first != []
    ensures var state := FramerState(None, line);
            Run(max, state, c.first, c.rest).events
            == [Emit(OctetFront(max, s).body)] + Run(max, state, later.first, later.rest).events
  {
    hide OctetFront, Run, DecodeTurn, Concat;
    var size := OctetFront(max, s).size;
    c := Cuts(s[..size] + later.first, later.rest);
    assert c.first + Concat(c.rest) == s[..size] + s[size..] == s;
    assert c.first == s[..|c.first|] && s[size..|c.first|] == later.first;
    WholeDecodes(max, line, s, |c.first|);
    RunIsThereafter(max, FramerState(None, line), c.first, c.rest);
  }

  /** An ambiguous prefix read in two pieces is oversize. */
  lemma CutPrefix(max: nat, line: LineState, s: bytes, held: nat) returns (c: Cuts)
    requires s != [] && IsCountStart(s[0]) && OctetFront(max, s) == Cut(AMBIGUOUS) && held <= Seek(s, SPACE)
    ensures Fits(c, s, held) && c.first != []
    ensures Run(max, FramerState(None, line), c.first, c.rest).events == [OVERSIZE]
  {
    hide OctetFront, Run, DecodeTurn, Seek, Fits;
    AmbiguousShape(max, s);
    var k := Larger(held, Seek(s, NEWLINE) + 1);
    c := InTwo(s, k, held);
    CutAmbiguous(max, line, s, k);
    RunIsThereafter(max, FramerState(None, line), c.first, c.rest);
  }

  /** In one piece, a stream whose first counted frame is its last. */
  lemma WholeCounted(max: nat, line: LineState, s: bytes, held: nat, events: seq<Event>)
    requires s != [] && IsCountStart(s[0]) && Plausible(max, line, s, held)
    requires CountedTale(max, line, s, held, events) && OctetFront(max, s).Cut?
    requires OctetFront(max, s).ending == AMBIGUOUS ==> events[0].error.reason != Oversize
    ensures Run(max, FramerState(None, line), s, []).events == events
  {
    hide OctetFront, Run, Tale, Seek;
    var state := FramerState(None, line);
    var told := Run(max, state, s, []).events;
    RunTold(max, state, s, []);
    assert s + Concat([]) == s;
    CountedIsTale(max, line, s, |s|, told);
    if OctetFront(max, s).ending.Fatal? {
      FatalReasons(max, s);
      if OctetFront(max, s).ending == AMBIGUOUS {
        AmbiguousShape(max, s);
      }
      assert told[0] == events[0];
    }
  }

  // ----------------------------------------------------------------------------------- lines

  /** The line codec on a buffer that holds a whole line. */
  lemma LineCloses(max: nat, index: nat, s: bytes, k: nat)
    requires index <= |s| && index <= max
    requires SeekFrom(s, NEWLINE, index) <= max && SeekFrom(s, NEWLINE, index) < k <= |s|
    ensures var newline := SeekFrom(s, NEWLINE, index);
            ReadLine(max, false, index, s[..k]) == Turn(Checked(StripCr(s[..newline])), FRESH, s[newline + 1..k])
  {
    hide Checked, StripCr, SeekFrom;
    var b, newline := s[..k], SeekFrom(s, NEWLINE, index);
    assert forall i | 0 <= i <= newline :: b[i] == s[i];
    SeekFromIs(b, NEWLINE, index, newline);
    assert b[..newline] == s[..newline] && b[newline + 1..] == s[newline + 1..k];
  }

  lemma LineOverruns(max: nat, index: nat, s: bytes, k: nat)
    requires index <= max < k <= |s| && max < SeekFrom(s, NEWLINE, index)
    ensures ReadLine(max, false, index, s[..k])
            == Turn(Rejected(TOO_LONG), FramerState(None, LineState(true, index)), s[..k])
  {
    hide Checked, SeekFrom;
    assert SeekFrom(s[..k], NEWLINE, index) > max;
  }

  /** The first call is the line codec's, with nothing to skip. */
  lemma {:induction false} RealizeLine(max: nat, index: nat, s: bytes, held: nat, events: seq<Event>)
    returns (c: Cuts)
    requires s != [] && index <= |s| && index <= max && index <= held && LineTale(max, index, s, held, events)
    requires !IsCountStart(s[0]) || (Decided(max, 0, s) && index == 0)
    ensures Fits(c, s, held) && c.first != [] && index <= ReadTo(max, c.first)
    ensures Thereafter(max, ReadLine(max, false, index, c.first), c.rest) == events
    decreases |s|, 3
  {
    hide Run, Tale, ReadLine, SeekFrom, LineTale, Thereafter;
    if !Decided(max, index, s) {
      c := Cuts(s, []);
      AllAtOnce(s, held);
      WholeLine(max, index, s, held, events);
    } else if SeekFrom(s, NEWLINE, index) < |s| && SeekFrom(s, NEWLINE, index) <= max {
      c := RealizeClosed(max, index, s, held, events);
    } else {
      c := RealizeOverrun(max, index, s, held, events);
    }
    assert c.rest == [] ==> c.first == s;
  }

  lemma {:induction false} RealizeClosed(max: nat, index: nat, s: bytes, held: nat, events: seq<Event>)
    returns (c: Cuts)
    requires s != [] && index <= |s| && index <= max
    requires SeekFrom(s, NEWLINE, index) < |s| && SeekFrom(s, NEWLINE, index) <= max
    requires LineTale(max, index, s, held, events)
    ensures Fits(c, s, held) && c.first != [] && index <= ReadTo(max, c.first)
    ensures Thereafter(max, ReadLine(max, false, index, c.first), c.rest) == events
    decreases |s|, 3, 0
  {
    hide Run, Tale, ReadLine, SeekFrom, ValidUtf8, Concat;
    var size := SeekFrom(s, NEWLINE, index) + 1;
    if ValidUtf8(StripCr(s[..size - 1])) {
      var later := Realize(max, START, s[size..], Minus(held, size), events[1..]);
      c := Cuts(s[..size] + later.first, later.rest);
      assert c.first + Concat(c.rest) == s[..size] + s[size..] == s;
      assert c.first == s[..|c.first|] && s[size..|c.first|] == later.first;
      LineCloses(max, index, s, |c.first|);
      assert events == [events[0]] + events[1..];
    } else {
      c := Cuts(s, []);
      AllAtOnce(s, held);
      LineCloses(max, index, s, |s|);
      assert s[..|s|] == s;
    }
  }

  lemma {:induction false} RealizeOverrun(max: nat, index: nat, s: bytes, held: nat, events: seq<Event>)
    returns (c: Cuts)
    requires s != [] && index <= max < |s| && SeekFrom(s, NEWLINE, index) > max
    requires LineTale(max, index, s, held, events) && (index > 0 ==> !IsCountStart(s[0]))
    ensures Fits(c, s, held) && c.first != [] && index <= ReadTo(max, c.first)
    ensures Thereafter(max, ReadLine(max, false, index, c.first), c.rest) == events
    decreases |s|, 3, 0
  {
    hide Run, Tale, ReadLine, SeekFrom, ValidUtf8;
    c := Realize(max, LineState(true, index), s, Larger(held, max + 1), events[1..]);
    assert c.rest == [] ==> c.first == s;
    assert c.first == s[..|c.first|];
    LineOverruns(max, index, s, |c.first|);
    assert events == [events[0]] + events[1..];
  }

  lemma WholeLine(max: nat, index: nat, s: bytes, held: nat, events: seq<Event>)
    requires s != [] && !IsCountStart(s[0]) && index <= |s| && index <= max
    requires LineTale(max, index, s, held, events) && !Decided(max, index, s)
    ensures Thereafter(max, ReadLine(max, false, index, s), []) == events
  {
    hide ReadLine, Drain, SeekFrom, ValidUtf8, Tale;
    UndecidedTurn(max, index, s);
    LastLine(max, s, held);
    NothingBehind(s);
    var told := Drain(max, true, FramerState(None, LineState(false, |s|)), s).events;
    LastIsOnly(max, s, index, |s|, held, events, told);
  }

  /** An unterminated line is the last. */
  lemma LastIsOnly(max: nat, s: bytes, index: nat, other: nat, held: nat, one: seq<Event>, two: seq<Event>)
    requires s != [] && |s| <= max && index <= |s| && other <= |s|
    requires SeekFrom(s, NEWLINE, index) == |s| == SeekFrom(s, NEWLINE, other)
    requires LineTale(max, index, s, held, one) && LineTale(max, other, s, held, two)
    ensures one == two
  {
    hide SeekFrom, ValidUtf8, Tale;
    assert s[|s|..] == [];
    if LineFrontAt(max, s, |s|).Whole? {
      NoTale(max, Minus(held, |s|), one[1..]);
      NoTale(max, Minus(held, |s|), two[1..]);
      assert one == [one[0]] + one[1..] && two == [two[0]] + two[1..];
    } else if LineFrontAt(max, s, |s|).ending.Fatal? {
      assert one[0] == two[0];
    }
  }

  lemma NoTale(max: nat, held: nat, events: seq<Event>)
    requires Tale(max, START, [], held, events)
    ensures events == []
  {
  }

  // -------------------------------------------------------------------------------- skipping

  lemma {:induction false} RealizeSkip(max: nat, index: nat, s: bytes, held: nat, events: seq<Event>)
    returns (c: Cuts)
    requires s != [] && !IsCountStart(s[0]) && Plausible(max, LineState(true, index), s, held) && index <= |s|
    requires SkipTale(max, index, s, held, events)
    ensures Fits(c, s, held) && c.first != []
    ensures Run(max, FramerState(None, LineState(true, index)), c.first, c.rest).events == events
    decreases |s|, 0
  {
    hide Run, Tale, AfterTale, ReadLine, OctetTurn, SeekFrom, Fits, Thereafter;
    var n := SeekFrom(s, NEWLINE, index);
    if j :| 0 < j < n && held <= j && IsCountStart(s[j]) && Tale(max, SKIPPING, s[j..], 0, events) {
      var later := Realize(max, SKIPPING, s[j..], 0, events);
      c := SkipToDigit(max, index, s, held, j, later);
    } else if n == |s| {
      c := Cuts(s, []);
      AllAtOnce(s, held);
      SkipAll(max, index, s);
    } else {
      var later := RealizeAfter(max, s[n + 1..], Minus(held, n + 1), events);
      c := SkipLine(max, index, s, held, later);
    }
  }

  /** The part in front of a digit skipped, and the next read begun with the digit. */
  lemma SkipToDigit(max: nat, index: nat, s: bytes, held: nat, j: nat, later: Cuts) returns (c: Cuts)
    requires s != [] && !IsCountStart(s[0]) && index <= |s| && 0 < j < SeekFrom(s, NEWLINE, index) && held <= j
    requires Plausible(max, LineState(true, index), s, held)
    requires Fits(later, s[j..], 0) && later.first != []
    ensures Fits(c, s, held) && c.first != []
    ensures Run(max, FramerState(None, LineState(true, index)), c.first, c.rest).events
            == Run(max, FramerState(None, SKIPPING), later.first, later.rest).events
  {
    hide Run, LineTurn, OctetTurn, SeekFrom;
    c := Cuts(s[..j], [later.first] + later.rest);
    assert c.rest[0] == later.first && c.rest[1..] == later.rest;
    assert c.first + Concat(c.rest) == s[..j] + s[j..] == s;
    assert SeekFrom(c.first, NEWLINE, index) == |c.first|;
    SkipTurn(max, false, index, c.first);
    assert [] + later.first == later.first;
    RunIsThereafter(max, FramerState(None, LineState(true, index)), c.first, c.rest);
  }

  lemma SkipAll(max: nat, index: nat, s: bytes)
    requires s != [] && !IsCountStart(s[0]) && index <= |s| && index <= max && SeekFrom(s, NEWLINE, index) == |s|
    ensures Run(max, FramerState(None, LineState(true, index)), s, []).events == []
  {
    hide Run, LineTurn, OctetTurn, SeekFrom;
    SkipTurn(max, false, index, s);
    EmptyEof(max, SKIPPING);
    RunIsThereafter(max, FramerState(None, LineState(true, index)), s, []);
  }

  /** The whole line skipped by the call that also looks behind it. */
  lemma SkipLine(max: nat, index: nat, s: bytes, held: nat, later: Cuts) returns (c: Cuts)
    requires s != [] && !IsCountStart(s[0]) && index <= max && index <= |s| && SeekFrom(s, NEWLINE, index) < |s|
    requires var n := SeekFrom(s, NEWLINE, index); Fits(later, s[n + 1..], Minus(held, n + 1))
    ensures Fits(c, s, held) && c.first != []
    ensures Run(max, FramerState(None, LineState(true, index)), c.first, c.rest).events
            == Thereafter(max, ReadLine(max, false, 0, later.first), later.rest)
  {
    hide Run, ReadLine, LineTurn, OctetTurn, SeekFrom, Concat, Thereafter;
    var n := SeekFrom(s, NEWLINE, index);
    var front := s[..n + 1];
    c := Cuts(front + later.first, later.rest);
    assert c.first + Concat(c.rest) == front + s[n + 1..] == s;
    assert forall i | 0 <= i <= n :: c.first[i] == s[i];
    SeekFromIs(c.first, NEWLINE, index, n);
    SkipTurn(max, false, index, c.first);
    assert c.first[n + 1..] == later.first;
    RunIsThereafter(max, FramerState(None, LineState(true, index)), c.first, c.rest);
  }

  lemma {:induction false} RealizeAfter(max: nat, r: bytes, held: nat, events: seq<Event>) returns (c: Cuts)
    requires AfterTale(max, r, held, events)
    ensures Fits(c, r, held)
    ensures Thereafter(max, ReadLine(max, false, 0, c.first), c.rest) == events
    decreases |r|, 5
  {
    hide Run, Tale, LineTale, ReadLine, Seek, SeekFrom;
    if r == [] {
      c := Cuts([], []);
      NothingDecided(max);
      UndecidedTurn(max, 0, []);
      EmptyEof(max, START);
      NoTale(max, held, events);
    } else if !IsCountStart(r[0]) {
      LineIsTale(max, r, held, events);
      c := RealizeLine(max, 0, r, held, events);
    } else if Decided(max, 0, r) && LineTale(max, 0, r, held, events) {
      c := RealizeLine(max, 0, r, held, events);
    } else {
      var m: nat :| Least(held, |r|) <= m <= UpTo(max, r) && Tale(max, LineState(false, m), r, m + 1, events);
      c := RealizeUndecided(max, r, held, m, events);
    }
  }

  lemma LineIsTale(max: nat, s: bytes, held: nat, events: seq<Event>)
    requires s != [] && !IsCountStart(s[0])
    ensures Tale(max, START, s, held, events) <==> LineTale(max, 0, s, held, events)
  {
    hide LineFrontAt;
  }

  /** The buffer ends before it decides the line; the next read, or the end of the
      stream, finds a digit in front and `m` bytes searched. */
  lemma {:induction false} RealizeUndecided(max: nat, r: bytes, held: nat, m: nat, events: seq<Event>)
    returns (c: Cuts)
    requires r != [] && IsCountStart(r[0])
    requires Least(held, |r|) <= m <= UpTo(max, r) && Tale(max, LineState(false, m), r, m + 1, events)
    ensures Fits(c, r, held)
    ensures Thereafter(max, ReadLine(max, false, 0, c.first), c.rest) == events
    decreases |r|, 5, 0
  {
    hide Run, Tale, ReadLine, Seek, SeekFrom;
    var later := Realize(max, LineState(false, m), r, m + 1, events);
    var first := r[..m];
    SeekResumes(first, NEWLINE, 0);
    assert Seek(first, NEWLINE) == m;
    UndecidedTurn(max, 0, first);
    if |later.first| > m {
      var next := later.first[m..];
      assert first + next == later.first;
      c := Cuts(first, [next] + later.rest);
      assert c.rest[0] == next && c.rest[1..] == later.rest;
      assert c.first + Concat(c.rest) == r;
    } else {
      c := Cuts(r, []);
      assert first == r;
      ShortEof(max, m, r, m + 1);
      ShortUnique(max, m, r, m + 1, m + 1, events,
                  Drain(max, true, FramerState(None, LineState(false, m)), r).events);
    }
  }

  /** A short rest of which all has been searched can be told in one way only. */
  lemma {:induction false} ShortUnique(max: nat, index: nat, s: bytes, held: nat, other: nat,
                                       one: seq<Event>, two: seq<Event>)
    requires NEWLINE !in s && |s| <= index && |s| < held && |s| < other
    requires s == [] || !IsCountStart(s[0]) ==> |s| < index
    requires Tale(max, LineState(false, index), s, held, one) && Tale(max, LineState(false, index), s, other, two)
    ensures one == two
    decreases |s|
  {
    if s != [] && IsCountStart(s[0]) {
      hide OctetFront, LineTale, Seek;
      var front := OctetFront(max, s);
      if front.Whole? {
        ShortUnique(max, index, s[front.size..], Minus(held, front.size), Minus(other, front.size), one[1..], two[1..]);
        assert one == [one[0]] + one[1..] && two == [two[0]] + two[1..];
      } else if front.ending.Fatal? {
        FatalReasons(max, s);
        NotAmbiguous(max, s);
        assert one[0] == two[0];
      }
    }
  }

  lemma NotAmbiguous(max: nat, s: bytes)
    requires NEWLINE !in s
    ensures OctetFront(max, s) != Cut(AMBIGUOUS)
  {
    hide ValidUtf8, ParseUsize, Seek;
  }

  // ----------------------------------------------------------------------------- exactness

  /** Some way of reading `s` gives `events`. */
  ghost predicate CanGive(max: nat, s: bytes, events: seq<Event>) {
    exists chunks: seq<bytes> :: Reads(chunks, s) && Run(max, FRESH, [], chunks).events == events
  }

  /** A stream can give exactly the events of its tales: every way of reading it tells
      one, and every tale is told by some way of reading it. */
  lemma TalesAreExact(max: nat, s: bytes, events: seq<Event>)
    ensures Tale(max, START, s, 0, events) <==> CanGive(max, s, events)
  {
    hide Tale, Run;
    if Tale(max, START, s, 0, events) {
      var c := Realize(max, START, s, 0, events);
      var chunks := if s == [] then [] else [c.first] + c.rest;
      if s == [] {
        NoTale(max, 0, events);
        EmptyRun(max, START);
      } else {
        assert chunks[0] == c.first && chunks[1..] == c.rest;
        ReadNext(max, c.first, c.rest);
      }
      assert Reads(chunks, s) && Run(max, FRESH, [], chunks).events == events;
    }
    forall chunks: seq<bytes> | Reads(chunks, s) && Run(max, FRESH, [], chunks).events == events
      ensures Tale(max, START, s, 0, events)
    {
      RunTold(max, FRESH, [], chunks);
      assert [] + Concat(chunks) == s;
    }
  }

  lemma ReadNext(max: nat, first: bytes, rest: seq<bytes>)
    ensures Run(max, FRESH, [], [first] + rest).events == Run(max, FRESH, first, rest).events
  {
    hide Drain;
    NothingBuffered(max);
    var all := [first] + rest;
    assert all[0] == first && all[1..] == rest && [] + first == first;
    var r := Run(max, FRESH, first, rest);
    assert [] + r.events == r.events;
  }
}
