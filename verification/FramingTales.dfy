/** Past an oversize line: every sequence of events that some way of cutting a stream
    into reads can give, read off the bytes of the stream alone; and the proof that
    every run gives one of them. */
module FramingTales {
  import opened Bytes
  import opened Framing
  import opened FramingStream
  import opened FramingExact

  function Minus(a: nat, b: nat): nat {
    if a > b then a - b else 0
  }

  function Larger(a: nat, b: nat): nat {
    if a > b then a else b
  }

  function Least(a: nat, b: nat): nat {
    if a < b then a else b
  }

  // ------------------------------------------------------------------------ the reference

  predicate Starts(events: seq<Event>, e: Event) {
    events != [] && events[0] == e
  }

  /** A fatal rejection with one of the reasons of the front. An ambiguous prefix is
      oversize only for a buffer that ends before the space. */
  predicate EndsFatally(s: bytes, reasons: set<RejectReason>, held: nat, events: seq<Event>) {
    && |events| == 1 && events[0].Reject? && events[0].error.fatal && events[0].error.reason in reasons
    && (Fatal(reasons) == AMBIGUOUS && events[0].error.reason == Oversize ==> held <= Seek(s, SPACE))
  }

  /** The next call can be one of the line codec on a buffer shorter than what the codec
      believes it has searched. */
  predicate Trips(line: LineState, s: bytes, held: nat) {
    && !line.skipping
    && if s != [] && IsCountStart(s[0]) then held == 0 < line.index else Least(held, |s|) < line.index
  }

  /** The events that `s` can still give a framer without a counted frame in hand, whose
      next call sees at least `held` bytes of it, or all. */
  ghost predicate Tale(max: nat, line: LineState, s: bytes, held: nat, events: seq<Event>)
    decreases |s|, if line.skipping then 2 else 4
  {
    || (Trips(line, s, held) && events == [Crash])
    || if s == [] then line.index == 0 && events == []
       else if IsCountStart(s[0]) then CountedTale(max, line, s, held, events)
       else if line.index > |s| then false
       else if line.skipping then SkipTale(max, line.index, s, held, events)
       else LineTale(max, line.index, s, Larger(held, line.index), events)
  }

  /** A counted frame; the line codec learns nothing of it. */
  ghost predicate CountedTale(max: nat, line: LineState, s: bytes, held: nat, events: seq<Event>)
    requires s != []
    decreases |s|, 1
  {
    match OctetFront(max, s)
    case Whole(body, size) =>
      Starts(events, Emit(body)) && Tale(max, line, s[size..], Minus(held, size), events[1..])
    case Cut(Fatal(reasons)) => EndsFatally(s, reasons, held, events)
    case Cut(_) => events == []
  }

  /** A line whose newline is looked for from `index` on. */
  ghost predicate LineTale(max: nat, index: nat, s: bytes, held: nat, events: seq<Event>)
    requires s != [] && index <= |s|
    decreases |s|, 3
  {
    match LineFrontAt(max, s, SeekFrom(s, NEWLINE, index))
    case Whole(body, size) =>
      Starts(events, Emit(body)) && Tale(max, START, s[size..], Minus(held, size), events[1..])
    case Cut(Fatal(reasons)) => EndsFatally(s, reasons, held, events)
    case Cut(Clean) => events == []
    case Cut(LineTooLong) =>
      && Starts(events, Reject(TOO_LONG))
      && Tale(max, LineState(true, index), s, Larger(held, max + 1), events[1..])
  }

  /** Skipping a line: a read that begins with a digit is taken for a counted frame in
      the middle of it; otherwise everything up to the newline is gone. */
  ghost predicate SkipTale(max: nat, index: nat, s: bytes, held: nat, events: seq<Event>)
    requires s != [] && index <= |s|
    decreases |s|, 0
  {
    var n := SeekFrom(s, NEWLINE, index);
    || (exists j :: 0 < j < n && held <= j && IsCountStart(s[j]) && Tale(max, SKIPPING, s[j..], 0, events))
    || (if n == |s| then events == [] else AfterTale(max, s[n + 1..], Minus(held, n + 1), events))
  }

  /** Behind the newline of a skipped line. The call that found it goes on as the line
      codec, digit or not. If its buffer does not decide the next line, that call has
      searched the bytes it has, and a digit in front makes the next one start a counted
      frame all the same. */
  ghost predicate AfterTale(max: nat, r: bytes, held: nat, events: seq<Event>)
    decreases |r|, 5
  {
    if r == [] || !IsCountStart(r[0]) then Tale(max, START, r, held, events)
    else
      || (exists m: nat :: Least(held, |r|) <= m <= UpTo(max, r) && Tale(max, LineState(false, m), r, m + 1, events))
      || (Decided(max, 0, r) && LineTale(max, 0, r, held, events))
  }

  /** The most bytes of `r` that do not decide its first line. */
  function UpTo(max: nat, r: bytes): (n: nat)
    ensures n <= |r| && n <= max
  {
    Least(Seek(r, NEWLINE), max)
  }

  /** These bytes decide the first line, searched from `index` on. */
  predicate Decided(max: nat, index: nat, r: bytes)
    requires index <= |r|
  {
    (SeekFrom(r, NEWLINE, index) < |r| && SeekFrom(r, NEWLINE, index) <= max) || |r| > max
  }

  // --------------------------------------------------------------- fewer bytes, more tales

  lemma {:induction false} Looser(max: nat, line: LineState, s: bytes, held: nat, less: nat, events: seq<Event>)
    requires less <= held && Tale(max, line, s, held, events)
    ensures Tale(max, line, s, less, events)
    decreases |s|, if line.skipping then 2 else 4
  {
    hide CountedTale, SkipTale, LineTale;
    if Trips(line, s, held) && events == [Crash] {
    } else if s == [] {
    } else if IsCountStart(s[0]) {
      LooserCounted(max, line, s, held, less, events);
    } else if line.skipping {
      LooserSkip(max, line.index, s, held, less, events);
    } else {
      LooserLine(max, line.index, s, Larger(held, line.index), Larger(less, line.index), events);
    }
  }

  lemma {:induction false} LooserCounted(max: nat, line: LineState, s: bytes, held: nat, less: nat, events: seq<Event>)
    requires s != [] && less <= held && CountedTale(max, line, s, held, events)
    ensures CountedTale(max, line, s, less, events)
    decreases |s|, 1
  {
    hide OctetFront, Tale;
    match OctetFront(max, s)
    case Whole(_, size) => Looser(max, line, s[size..], Minus(held, size), Minus(less, size), events[1..]);
    case Cut(_) =>
  }

  lemma {:induction false} LooserLine(max: nat, index: nat, s: bytes, held: nat, less: nat, events: seq<Event>)
    requires s != [] && index <= |s| && less <= held && LineTale(max, index, s, held, events)
    ensures LineTale(max, index, s, less, events)
    decreases |s|, 3
  {
    hide LineFrontAt, Tale;
    match LineFrontAt(max, s, SeekFrom(s, NEWLINE, index))
    case Whole(_, size) => Looser(max, START, s[size..], Minus(held, size), Minus(less, size), events[1..]);
    case Cut(LineTooLong) =>
      Looser(max, LineState(true, index), s, Larger(held, max + 1), Larger(less, max + 1), events[1..]);
    case Cut(_) =>
  }

  lemma {:induction false} LooserSkip(max: nat, index: nat, s: bytes, held: nat, less: nat, events: seq<Event>)
    requires s != [] && index <= |s| && less <= held && SkipTale(max, index, s, held, events)
    ensures SkipTale(max, index, s, less, events)
    decreases |s|, 0
  {
    hide Tale, AfterTale;
    var n := SeekFrom(s, NEWLINE, index);
    if n < |s| && AfterTale(max, s[n + 1..], Minus(held, n + 1), events) {
      LooserAfter(max, s[n + 1..], Minus(held, n + 1), Minus(less, n + 1), events);
    }
  }

  lemma {:induction false} LooserAfter(max: nat, r: bytes, held: nat, less: nat, events: seq<Event>)
    requires less <= held && AfterTale(max, r, held, events)
    ensures AfterTale(max, r, less, events)
    decreases |r|, 5
  {
    hide LineTale, Tale;
    if r == [] || !IsCountStart(r[0]) {
      Looser(max, START, r, held, less, events);
    } else if Decided(max, 0, r) && LineTale(max, 0, r, held, events) {
      LooserLine(max, 0, r, held, less, events);
    }
  }

  // ------------------------------------------------------------------- every run is a tale

  /** The same for a framer in any state. */
  ghost predicate FromTale(max: nat, state: FramerState, s: bytes, held: nat, events: seq<Event>) {
    match state.octet
    case Some(Discarding(chars)) => events == if chars <= |s| then [OVERSIZE] else []
    case Some(DiscardingToEol) => events == if NEWLINE in s then [OVERSIZE] else []
    case _ => Tale(max, state.line, s, held, events)
  }

  /** The states a framer can be in, before or after skipping a line. */
  predicate InMode(max: nat, state: FramerState, buffer: bytes) {
    && (state.octet == Some(NotDiscarding) ==> buffer != [] && IsCountStart(buffer[0]))
    && (state.octet.Some? && state.octet.value.Discarding? ==> state.octet.value.chars > 0)
    && state.line.index <= max
    && (state.line.skipping && state.line.index > 0 ==>
          state.octet.None? && |buffer| > max && !IsCountStart(buffer[0]))
  }

  /** A call that ends the reader. */
  predicate Ends(turn: Turn) {
    turn.out.Panic? || (turn.out.Rejected? && turn.out.error.fatal)
  }

  /** The event of a call, and those after it. */
  function Say(turn: Turn, events: seq<Event>): seq<Event> {
    match turn.out
    case Frame(body) => [Emit(body)] + events
    case More => events
    case Rejected(error) => [Reject(error)] + if error.fatal then [] else events
    case Panic => [Crash]
  }

  /** `events` are told of what is left after a call. One that asked for more is
      followed by a read of at least a byte. */
  ghost predicate TellsOn(max: nat, turn: Turn, t: bytes, events: seq<Event>) {
    Ends(turn)
    || FromTale(max, turn.state, turn.rest + t, |turn.rest| + if turn.out.More? then 1 else 0, events)
  }

  /** What one call on the buffer `b` of an octet counted frame has to do with the front
      of the whole stream `b + t`. */
  predicate FrontTurn(max: nat, line: LineState, b: bytes, t: bytes, front: Front, turn: Turn) {
    match turn.out
    case Frame(body) =>
      && front.Whole? && front.body == body && front.size <= |b|
      && turn.state == FramerState(None, line) && turn.rest == b[front.size..]
    case Rejected(error) =>
      && error.fatal && front.Cut? && front.ending.Fatal? && error.reason in front.ending.reasons
      && (front.ending == AMBIGUOUS && error.reason == Oversize ==> |b| <= Seek(b + t, SPACE))
    case Panic => false
    case More =>
      && turn.state.line == line && turn.state.octet.Some?
      && match turn.state.octet.value
         case NotDiscarding => turn.rest == b && (front.Whole? ==> |b| < front.size)
         case Discarding(chars) =>
           chars > 0 && front == Cut(if chars <= |turn.rest + t| then Fatal({Oversize}) else Clean)
         case DiscardingToEol => front == Cut(if NEWLINE in turn.rest + t then Fatal({Oversize}) else Clean)
  }

  /** With a usable space in the buffer, the front of the stream is settled but for
      the rest of the body. */
  lemma SettledFront(max: nat, b: bytes, t: bytes, space: nat)
    requires space == Seek(b, SPACE) && space < |b| && space < max
    ensures var s, length := b + t, ParseUsize(b[..space]);
            && Seek(s, SPACE) == space
            && (length.None? ==>
                  OctetFront(max, s) == Cut(Fatal({InvalidLength})) || OctetFront(max, s) == Cut(AMBIGUOUS))
            && (length.Some? ==> OctetFront(max, s) == SizedFront(max, space, length.value, b[space + 1..] + t))
  {
    hide ParseUsize, ValidUtf8, Seek, Body;
    PrefixSettled(b, t, space);
  }

  /** A frame of `len` bytes at the front of `body`, behind its prefix. */
  function SizedFront(max: nat, space: nat, len: nat, body: bytes): Front {
    if len > max then Cut(if len <= |body| then Fatal({Oversize}) else Clean)
    else if len > |body| then Cut(Clean)
    else Body(body[..len], space + 1 + len)
  }

  lemma CountedFront(max: nat, line: LineState, b: bytes, t: bytes)
    requires Seek(b, SPACE) < |b| && Seek(b, SPACE) < max
    ensures FrontTurn(max, line, b, t, OctetFront(max, b + t), OctetTurn(max, NotDiscarding, line, b))
  {
    hide OctetFront, ParseUsize, ValidUtf8, Seek, SizedFront;
    var space := Seek(b, SPACE);
    SettledFront(max, b, t, space);
    if ParseUsize(b[..space]).Some? {
      SizedFrontTurn(max, line, b, t, space, ParseUsize(b[..space]).value);
    }
  }

  function SizedTurn(max: nat, line: LineState, b: bytes, space: nat, len: nat): Turn
    requires space < |b|
  {
    if len > max then Turn(More, FramerState(Some(Discarding(len)), line), b[space + 1..])
    else if space + 1 + len <= |b| then
      Turn(Checked(b[space + 1..space + 1 + len]), FramerState(None, line), b[space + 1 + len..])
    else Turn(More, FramerState(Some(NotDiscarding), line), b)
  }

  lemma SizedFrontTurn(max: nat, line: LineState, b: bytes, t: bytes, space: nat, len: nat)
    requires space == Seek(b, SPACE) && space < |b| && space < max && ParseUsize(b[..space]) == Some(len)
    ensures FrontTurn(max, line, b, t, SizedFront(max, space, len, b[space + 1..] + t),
                      OctetTurn(max, NotDiscarding, line, b))
  {
    hide FrontTurn, OctetTurn, ParseUsize, Seek, SizedFront, SizedTurn;
    SizedIsTurn(max, line, b, space, len);
    SizedAgrees(max, line, b, t, space, len);
  }

  lemma SizedIsTurn(max: nat, line: LineState, b: bytes, space: nat, len: nat)
    requires space == Seek(b, SPACE) && space < |b| && space < max && ParseUsize(b[..space]) == Some(len)
    ensures OctetTurn(max, NotDiscarding, line, b) == SizedTurn(max, line, b, space, len)
  {
    hide ParseUsize, ValidUtf8, Seek;
  }

  lemma SizedAgrees(max: nat, line: LineState, b: bytes, t: bytes, space: nat, len: nat)
    requires space < |b|
    ensures FrontTurn(max, line, b, t, SizedFront(max, space, len, b[space + 1..] + t),
                      SizedTurn(max, line, b, space, len))
  {
    hide ValidUtf8, Seek;
    if len <= max && space + 1 + len <= |b| {
      assert (b[space + 1..] + t)[..len] == b[space + 1..space + 1 + len];
    }
  }

  lemma UnsettledFront(max: nat, b: bytes, t: bytes)
    requires Seek(b, SPACE) == |b| || Seek(b, SPACE) >= max
    ensures NEWLINE in b ==> OctetFront(max, b + t) == Cut(Fatal({Oversize}))
                             || (OctetFront(max, b + t) == Cut(AMBIGUOUS) && |b| <= Seek(b + t, SPACE))
    ensures NEWLINE !in b && |b| >= max ==>
              OctetFront(max, b + t) == Cut(if NEWLINE in t then Fatal({Oversize}) else Clean)
    ensures OctetFront(max, b + t).Whole? ==> |b| < OctetFront(max, b + t).size
  {
    hide ValidUtf8, ParseUsize;
    SeekAppend(b, t, SPACE);
    SeekAppend(b, t, NEWLINE);
    assert NEWLINE in b + t <==> NEWLINE in b || NEWLINE in t;
  }

  lemma UncountedTurn(max: nat, line: LineState, b: bytes)
    requires Seek(b, SPACE) == |b| || Seek(b, SPACE) >= max
    ensures var turn := OctetTurn(max, NotDiscarding, line, b);
            if NEWLINE in b then turn.out == FatalError(Oversize)
            else if |b| < max then turn == Turn(More, FramerState(Some(NotDiscarding), line), b)
            else turn == Turn(More, FramerState(Some(DiscardingToEol), line), [])
  {
    hide ParseUsize, ValidUtf8, Seek;
    assert NEWLINE in b ==> Seek(b, NEWLINE) < |b|;
    assert Seek(b, NEWLINE) < |b| ==> NEWLINE in b;
  }

  lemma UncountedFront(max: nat, line: LineState, b: bytes, t: bytes)
    requires Seek(b, SPACE) == |b| || Seek(b, SPACE) >= max
    ensures FrontTurn(max, line, b, t, OctetFront(max, b + t), OctetTurn(max, NotDiscarding, line, b))
  {
    hide OctetFront, OctetTurn, Seek;
    UnsettledFront(max, b, t);
    UncountedTurn(max, line, b);
    assert [] + t == t;
  }

  lemma OctetFrontTurn(max: nat, line: LineState, b: bytes, t: bytes)
    ensures FrontTurn(max, line, b, t, OctetFront(max, b + t), OctetTurn(max, NotDiscarding, line, b))
  {
    hide FrontTurn, OctetFront, OctetTurn;
    if Seek(b, SPACE) < |b| && Seek(b, SPACE) < max {
      CountedFront(max, line, b, t);
    } else {
      UncountedFront(max, line, b, t);
    }
  }

  lemma CountedTells(max: nat, line: LineState, b: bytes, t: bytes, events: seq<Event>)
    requires b != [] && IsCountStart(b[0])
    requires TellsOn(max, OctetTurn(max, NotDiscarding, line, b), t, events)
    ensures Tale(max, line, b + t, |b|, Say(OctetTurn(max, NotDiscarding, line, b), events))
  {
    hide OctetFront, OctetTurn, Tale, CountedTale, Seek;
    var s, turn := b + t, OctetTurn(max, NotDiscarding, line, b);
    OctetFrontTurn(max, line, b, t);
    CountedIsTale(max, line, s, |b|, Say(turn, events));
    if turn.out.More? && turn.state.octet.value.NotDiscarding? {
      Looser(max, line, s, |b| + 1, |b|, events);
    } else {
      FrontTells(max, line, b, t, turn, events);
    }
  }

  lemma FrontTells(max: nat, line: LineState, b: bytes, t: bytes, turn: Turn, events: seq<Event>)
    requires b != [] && FrontTurn(max, line, b, t, OctetFront(max, b + t), turn)
    requires turn.out.More? ==> !turn.state.octet.value.NotDiscarding?
    requires TellsOn(max, turn, t, events)
    ensures CountedTale(max, line, b + t, |b|, Say(turn, events))
  {
    hide OctetFront, Tale, Seek;
    if turn.out.Frame? {
      assert (b + t)[OctetFront(max, b + t).size..] == turn.rest + t;
      assert Say(turn, events)[1..] == events;
    }
  }

  /** With a byte in the buffer, a digit in front means a counted frame. */
  lemma CountedIsTale(max: nat, line: LineState, s: bytes, held: nat, events: seq<Event>)
    requires s != [] && IsCountStart(s[0]) && held > 0
    ensures CountedTale(max, line, s, held, events) <==> Tale(max, line, s, held, events)
  {
    hide OctetFront;
  }

  lemma DiscardTells(max: nat, octet: OctetState, line: LineState, b: bytes, t: bytes, events: seq<Event>)
    requires octet.Discarding? || octet.DiscardingToEol?
    requires TellsOn(max, OctetTurn(max, octet, line, b), t, events)
    ensures FromTale(max, FramerState(Some(octet), line), b + t, |b|, Say(OctetTurn(max, octet, line, b), events))
  {
    hide Tale, ParseUsize, ValidUtf8;
    assert [] + t == t;
    assert NEWLINE in b + t <==> NEWLINE in b || NEWLINE in t;
  }

  /** The line codec, with nothing to skip, on a buffer that decides the line. */
  lemma DecidedTells(max: nat, index: nat, b: bytes, t: bytes, events: seq<Event>)
    requires b != [] && index <= |b| && index <= max && Decided(max, index, b)
    requires TellsOn(max, ReadLine(max, false, index, b), t, events)
    ensures LineTale(max, index, b + t, |b|, Say(ReadLine(max, false, index, b), events))
  {
    hide Tale, ValidUtf8, SeekFrom;
    SeekFromAppend(b, t, NEWLINE, index);
    var s, turn, newline := b + t, ReadLine(max, false, index, b), SeekFrom(b, NEWLINE, index);
    assert !Ends(turn) ==> Say(turn, events)[1..] == events;
    if newline < |b| && newline <= max {
      assert s[..newline] == b[..newline];
      assert s[newline + 1..] == b[newline + 1..] + t;
    }
  }

  lemma UndecidedTurn(max: nat, index: nat, b: bytes)
    requires index <= |b| && !Decided(max, index, b)
    ensures |b| <= max && ReadLine(max, false, index, b) == Turn(More, FramerState(None, LineState(false, |b|)), b)
    ensures SeekFrom(b, NEWLINE, index) == |b|
  {
    hide ValidUtf8;
  }

  /** Bytes searched in vain need not be searched again. */
  lemma SearchOn(max: nat, index: nat, b: bytes, t: bytes, held: nat, events: seq<Event>)
    requires b != [] && !IsCountStart(b[0]) && index <= |b| && SeekFrom(b, NEWLINE, index) == |b| <= max
    requires LineTale(max, |b|, b + t, held, events)
    ensures LineTale(max, index, b + t, held, events)
  {
    hide Tale, SeekFrom, LineFrontAt, SkipTale;
    SeekFromAppend(b, t, NEWLINE, index);
    SeekFromAppend(b, t, NEWLINE, |b|);
    NothingBehind(b);
    if LineFrontAt(max, b + t, |b| + Seek(t, NEWLINE)) == Cut(LineTooLong) {
      SkipAgain(max, index, b, t, Larger(held, max + 1), events[1..]);
    }
  }

  lemma NothingBehind(b: bytes)
    ensures SeekFrom(b, NEWLINE, |b|) == |b|
  {
  }

  lemma SkipAgain(max: nat, index: nat, b: bytes, t: bytes, held: nat, events: seq<Event>)
    requires b != [] && !IsCountStart(b[0]) && index <= |b| && SeekFrom(b, NEWLINE, index) == |b|
    requires Tale(max, LineState(true, |b|), b + t, held, events)
    ensures Tale(max, LineState(true, index), b + t, held, events)
  {
    SeekFromAppend(b, t, NEWLINE, index);
    SeekFromAppend(b, t, NEWLINE, |b|);
    NothingBehind(b);
    hide SeekFrom, CountedTale, AfterTale;
  }

  lemma LineTells(max: nat, index: nat, b: bytes, t: bytes, events: seq<Event>)
    requires index <= max && (b != [] ==> !IsCountStart(b[0]))
    requires TellsOn(max, LineTurn(max, false, LineState(false, index), b), t, events)
    ensures Tale(max, LineState(false, index), b + t, |b|,
                 Say(LineTurn(max, false, LineState(false, index), b), events))
  {
    hide ReadLine, LineTale, CountedTale, Decided;
    if index <= |b| {
      if Decided(max, index, b) {
        NothingDecided(max);
        DecidedTells(max, index, b, t, events);
      } else {
        UndecidedTurn(max, index, b);
        if b == [] {
          hide Tale;
          Looser(max, START, b + t, 1, 0, events);
        } else {
          SearchOn(max, index, b, t, |b| + 1, events);
          LooserLine(max, index, b + t, |b| + 1, |b|, events);
        }
      }
    }
  }

  lemma NothingDecided(max: nat)
    ensures !Decided(max, 0, [])
  {
  }

  lemma BehindTells(max: nat, line: bytes, t: bytes, events: seq<Event>)
    requires TellsOn(max, ReadLine(max, false, 0, line), t, events)
    ensures AfterTale(max, line + t, |line|, Say(ReadLine(max, false, 0, line), events))
  {
    hide ReadLine, LineTale, Tale, Seek, Decided, SeekFrom;
    var r := line + t;
    SeekAppend(line, t, NEWLINE);
    SeekResumes(line, NEWLINE, 0);
    if r == [] || !IsCountStart(r[0]) {
      LineTells(max, 0, line, t, events);
    } else if line != [] && Decided(max, 0, line) {
      DecidedTells(max, 0, line, t, events);
      StillDecided(max, line, t);
    } else {
      NothingDecided(max);
      UndecidedTurn(max, 0, line);
    }
  }

  lemma StillDecided(max: nat, b: bytes, t: bytes)
    requires Decided(max, 0, b)
    ensures Decided(max, 0, b + t)
  {
    hide SeekFrom;
    SeekFromAppend(b, t, NEWLINE, 0);
  }

  /** A call that skips its whole buffer: the next read may begin with a digit. */
  lemma {:induction false} SkipOn(max: nat, index: nat, b: bytes, t: bytes, events: seq<Event>)
    requires b != [] && index <= |b| && SeekFrom(b, NEWLINE, index) == |b| && Tale(max, SKIPPING, t, 1, events)
    ensures SkipTale(max, index, b + t, |b|, events)
  {
    hide CountedTale, AfterTale, Seek, SeekFrom;
    var s := b + t;
    SeekFromAppend(b, t, NEWLINE, index);
    if t != [] && IsCountStart(t[0]) {
      assert s[|b|..] == t && s[|b|] == t[0];
      Looser(max, SKIPPING, t, 1, 0, events);
    } else if t != [] {
      SkipFurther(max, index, b, t, events);
    }
  }

  lemma SkipFurther(max: nat, index: nat, b: bytes, t: bytes, events: seq<Event>)
    requires b != [] && index <= |b| && SeekFrom(b, NEWLINE, index) == |b|
    requires t != [] && SkipTale(max, 0, t, 1, events)
    ensures SkipTale(max, index, b + t, |b|, events)
  {
    hide Tale, AfterTale, Seek, SeekFrom;
    var s, n := b + t, Seek(t, NEWLINE);
    SeekFromAppend(b, t, NEWLINE, index);
    SeekResumes(t, NEWLINE, 0);
    if j :| 0 < j < n && IsCountStart(t[j]) && Tale(max, SKIPPING, t[j..], 0, events) {
      assert s[|b| + j..] == t[j..] && s[|b| + j] == t[j];
    } else if n < |t| {
      assert s[|b| + n + 1..] == t[n + 1..];
    }
  }

  /** Where a call that is skipping ends up. */
  lemma SkipTurn(max: nat, eof: bool, index: nat, b: bytes)
    requires index <= ReadTo(max, b)
    ensures var newline, turn := SeekFrom(b, NEWLINE, index), LineTurn(max, eof, LineState(true, index), b);
            turn == if newline == |b| then Turn(More, FramerState(None, SKIPPING), [])
                    else ReadLine(max, eof, 0, b[newline + 1..])
  {
    hide ReadLine;
  }

  lemma SkipTells(max: nat, index: nat, b: bytes, t: bytes, events: seq<Event>)
    requires index <= ReadTo(max, b) && (b != [] ==> !IsCountStart(b[0]))
    requires TellsOn(max, LineTurn(max, false, LineState(true, index), b), t, events)
    ensures Tale(max, LineState(true, index), b + t, |b|,
                 Say(LineTurn(max, false, LineState(true, index), b), events))
  {
    hide CountedTale, SkipTale, LineTurn, SeekFrom;
    SkipTurn(max, false, index, b);
    var n := SeekFrom(b, NEWLINE, index);
    assert [] + t == t;
    if n < |b| {
      NewlineTells(max, index, b, t, events);
    } else if b == [] {
      assert b + t == t;
      Looser(max, SKIPPING, t, 1, 0, events);
    } else {
      SkipOn(max, index, b, t, events);
    }
  }

  /** The newline is in the buffer. */
  lemma NewlineTells(max: nat, index: nat, b: bytes, t: bytes, events: seq<Event>)
    requires index <= |b| && SeekFrom(b, NEWLINE, index) < |b|
    requires TellsOn(max, ReadLine(max, false, 0, b[SeekFrom(b, NEWLINE, index) + 1..]), t, events)
    ensures SkipTale(max, index, b + t, |b|,
                     Say(ReadLine(max, false, 0, b[SeekFrom(b, NEWLINE, index) + 1..]), events))
  {
    hide AfterTale, Tale, ReadLine, SeekFrom, TellsOn, Say;
    var n := SeekFrom(b, NEWLINE, index);
    SeekFromAppend(b, t, NEWLINE, index);
    assert (b + t)[n + 1..] == b[n + 1..] + t;
    BehindTells(max, b[n + 1..], t, events);
  }

  lemma TurnTells(max: nat, state: FramerState, b: bytes, t: bytes, events: seq<Event>)
    requires InMode(max, state, b)
    requires TellsOn(max, DecodeTurn(max, false, state, b), t, events)
    ensures FromTale(max, state, b + t, |b|, Say(DecodeTurn(max, false, state, b), events))
  {
    hide OctetTurn, LineTurn, Tale, TellsOn;
    match Enter(state.octet, b)
    case Some(NotDiscarding) => CountedTells(max, state.line, b, t, events);
    case Some(octet) => DiscardTells(max, octet, state.line, b, t, events);
    case None =>
      if state.line.skipping {
        SkipTells(max, state.line.index, b, t, events);
      } else {
        LineTells(max, state.line.index, b, t, events);
      }
  }

  lemma KeepsMode(max: nat, eof: bool, state: FramerState, b: bytes)
    requires InMode(max, state, b) && !Ends(DecodeTurn(max, eof, state, b))
    ensures var turn := DecodeTurn(max, eof, state, b); InMode(max, turn.state, turn.rest)
  {
    hide ValidUtf8, Seek, SeekFrom, ParseUsize;
  }

  /** A framer that has just asked for more bytes. */
  predicate Quiet(max: nat, state: FramerState, b: bytes) {
    match state.octet
    case None =>
      if state.line.skipping then b == [] && state.line.index == 0
      else state.line.index == |b| <= max && (b != [] && IsCountStart(b[0]) ==> NEWLINE !in b)
    case Some(NotDiscarding) => OctetTurn(max, NotDiscarding, state.line, b) == Turn(More, state, b)
    case Some(_) => true
  }

  lemma MoreIsQuiet(max: nat, state: FramerState, b: bytes)
    requires InMode(max, state, b) && DecodeTurn(max, false, state, b).out.More?
    ensures var turn := DecodeTurn(max, false, state, b); Quiet(max, turn.state, turn.rest)
  {
    hide ValidUtf8, Seek, SeekFrom, ParseUsize;
  }

  lemma {:induction false} DrainTold(max: nat, state: FramerState, b: bytes, t: bytes, events: seq<Event>)
    requires InMode(max, state, b)
    ensures var d := Drain(max, false, state, b);
            if d.closed then FromTale(max, state, b + t, |b|, d.events)
            else
              && InMode(max, d.state, d.buffer) && Quiet(max, d.state, d.buffer)
              && (FromTale(max, d.state, d.buffer + t, |d.buffer| + 1, events) ==>
                    FromTale(max, state, b + t, |b|, d.events + events))
    decreases |b|, if state.line.skipping then 0 else 1
  {
    hide DecodeTurn, FromTale, Quiet, InMode;
    var turn, d := DecodeTurn(max, false, state, b), Drain(max, false, state, b);
    if Ends(turn) {
      TurnTells(max, state, b, t, []);
      assert Say(turn, []) == d.events;
    } else {
      KeepsMode(max, false, state, b);
      if turn.out.More? {
        MoreIsQuiet(max, state, b);
        if FromTale(max, turn.state, turn.rest + t, |turn.rest| + 1, events) {
          TurnTells(max, state, b, t, events);
          assert d.events + events == events;
        }
      } else {
        var later := Drain(max, false, turn.state, turn.rest);
        DrainTold(max, turn.state, turn.rest, t, events);
        var told := later.events + if later.closed then [] else events;
        assert d.events + (if later.closed then [] else events) == Say(turn, told);
        if FromTale(max, turn.state, turn.rest + t, |turn.rest|, told) {
          TurnTells(max, state, b, t, told);
        }
        assert later.closed ==> told == later.events && Say(turn, told) == d.events;
      }
    }
  }

  // ------------------------------------------------------------------- the end of the stream

  lemma EmptyEof(max: nat, line: LineState)
    requires line.index == 0
    ensures Drain(max, true, FramerState(None, line), []).events == []
  {
  }

  /** A short rest that begins with a digit and of which all has been searched: counted
      frames are read from it, and then the line codec is called on less than that. */
  lemma {:induction false} ShortEof(max: nat, index: nat, b: bytes, held: nat)
    requires |b| <= max && NEWLINE !in b && 0 < index <= max && |b| <= index
    requires b == [] || !IsCountStart(b[0]) ==> |b| < index
    ensures Tale(max, LineState(false, index), b, held,
                 Drain(max, true, FramerState(None, LineState(false, index)), b).events)
    decreases |b|
  {
    if b != [] && IsCountStart(b[0]) {
      hide Drain, CountedTale, LineTale;
      ShortCounted(max, index, b, held);
    }
  }

  lemma {:induction false} ShortCounted(max: nat, index: nat, b: bytes, held: nat)
    requires b != [] && IsCountStart(b[0]) && |b| <= max && NEWLINE !in b && |b| <= index <= max
    ensures CountedTale(max, LineState(false, index), b, held,
                        Drain(max, true, FramerState(None, LineState(false, index)), b).events)
    decreases |b|, 0
  {
    hide DecodeTurn, OctetFront, Tale, Seek;
    var state := FramerState(None, LineState(false, index));
    var turn, events := DecodeTurn(max, true, state, b), Drain(max, true, state, b).events;
    ShortCount(max, state.line, b);
    if turn.out.Frame? {
      ShortEof(max, index, turn.rest, Minus(held, OctetFront(max, b).size));
      assert events[1..] == Drain(max, true, state, turn.rest).events;
    }
  }

  lemma ShortCount(max: nat, line: LineState, b: bytes)
    requires b != [] && IsCountStart(b[0]) && |b| <= max && NEWLINE !in b
    ensures var turn, front := DecodeTurn(max, true, FramerState(None, line), b), OctetFront(max, b);
            match turn.out
            case Frame(body) =>
              && turn.state == FramerState(None, line)
              && front.Whole? && front.body == body && turn.rest == b[front.size..] && NEWLINE !in turn.rest
            case Rejected(error) =>
              && error.fatal && front.Cut? && front.ending.Fatal? && front.ending != AMBIGUOUS
              && error.reason in front.ending.reasons
            case More => front == Cut(Clean)
            case Panic => false
  {
    hide ValidUtf8, ParseUsize, Seek, LineTurn;
    assert Seek(b, NEWLINE) == |b|;
    var space := Seek(b, SPACE);
    if space < |b| && ParseUsize(b[..space]).Some? {
      var len := ParseUsize(b[..space]).value;
      if space + 1 + len <= |b| {
        assert b[space + 1..][..len] == b[space + 1..space + 1 + len];
      }
    }
  }

  /** An unterminated line of which all has been searched. */
  lemma LastLine(max: nat, b: bytes, held: nat)
    requires b != [] && !IsCountStart(b[0]) && |b| <= max
    ensures LineTale(max, |b|, b, held, Drain(max, true, FramerState(None, LineState(false, |b|)), b).events)
  {
    hide ValidUtf8, OctetTurn, SkipTale, CountedTale, SeekFrom;
    NothingBehind(b);
    assert b[|b|..] == [];
    var state := FramerState(None, LineState(false, |b|));
    var turn, events := DecodeTurn(max, true, state, b), Drain(max, true, state, b).events;
    EmptyEof(max, START);
    if turn.out.Frame? {
      assert turn.rest == [] && turn.state == FRESH;
      assert events == [Emit(turn.out.body)] && events[1..] == [];
    }
  }

  /** At end of stream a quiet framer tells what is left. */
  lemma EofTells(max: nat, state: FramerState, b: bytes)
    requires InMode(max, state, b) && Quiet(max, state, b)
    ensures FromTale(max, state, b, |b| + 1, Drain(max, true, state, b).events)
  {
    if state.octet.None? {
      hide Drain, LineTale, CountedTale;
      if b == [] {
        EmptyEof(max, state.line);
      } else if IsCountStart(b[0]) {
        ShortEof(max, |b|, b, |b| + 1);
      } else {
        LastLine(max, b, |b| + 1);
      }
    } else if state.octet.value.NotDiscarding? {
      hide Drain;
      PendingEof(max, state, b);
    } else {
      hide Tale, ParseUsize, ValidUtf8;
    }
  }

  lemma PendingEof(max: nat, state: FramerState, b: bytes)
    requires InMode(max, state, b) && state.octet == Some(NotDiscarding) && Quiet(max, state, b)
    ensures Tale(max, state.line, b, |b| + 1, Drain(max, true, state, b).events)
  {
    CountedIsTale(max, state.line, b, |b| + 1, []);
    hide Tale;
    PendingFront(max, state.line, b);
  }

  lemma PendingFront(max: nat, line: LineState, b: bytes)
    requires OctetTurn(max, NotDiscarding, line, b) == Turn(More, FramerState(Some(NotDiscarding), line), b)
    ensures OctetFront(max, b) == Cut(Clean)
  {
    hide ValidUtf8, ParseUsize, Seek;
  }

  /** From any state, over any reads, what the reader says is a tale. */
  lemma {:induction false} RunTold(max: nat, state: FramerState, b: bytes, chunks: seq<bytes>)
    requires InMode(max, state, b) && Reads(chunks, Concat(chunks))
    ensures FromTale(max, state, b + Concat(chunks), |b|, Run(max, state, b, chunks).events)
    decreases |chunks|
  {
    hide Drain, FromTale;
    var t, d := Concat(chunks), Drain(max, false, state, b);
    if d.closed {
      DrainTold(max, state, b, t, []);
    } else if chunks == [] {
      DrainTold(max, state, b, t, Drain(max, true, d.state, d.buffer).events);
      assert d.buffer + t == d.buffer;
      EofTells(max, d.state, d.buffer);
    } else {
      var next := d.buffer + chunks[0];
      var r := Run(max, d.state, next, chunks[1..]);
      DrainTold(max, state, b, t, r.events);
      assert chunks[0] in chunks && forall c | c in chunks[1..] :: c in chunks;
      assert d.buffer + t == next + Concat(chunks[1..]);
      RunTold(max, d.state, next, chunks[1..]);
      LooserFrom(max, d.state, d.buffer + t, |next|, |d.buffer| + 1, r.events);
    }
  }

  lemma LooserFrom(max: nat, state: FramerState, s: bytes, held: nat, less: nat, events: seq<Event>)
    requires less <= held && FromTale(max, state, s, held, events)
    ensures FromTale(max, state, s, less, events)
  {
    hide Tale;
    if state.octet.None? || state.octet.value.NotDiscarding? {
      Looser(max, state.line, s, held, less, events);
    }
  }
}
