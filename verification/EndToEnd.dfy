/** End to end: a sender writes a header and frames, and the workers are handed those
    messages, in that order, from that peer. */
module EndToEnd {
  import opened Bytes
  import opened Framing
  import opened FramingStream
  import opened Delivery
  import opened Protocol
  import opened Safety
  import opened StreamDelivery
  import opened Journal

  // ------------------------------------------------------------------ what a sender writes

  /** A message framed by a sender: octet counted, or as a line. */
  datatype WireFrame = Octets(body: bytes) | Line(body: bytes, crlf: bool)

  function Wire(f: WireFrame): bytes {
    match f
    case Octets(body) => Decimal(|body|) + [0x20] + body
    case Line(body, crlf) => body + if crlf then [0x0d, 0x0a] else [0x0a]
  }

  /** A counted frame may hold any text; a line may not hold a newline, must not open
      with a digit from 1 to 9, and loses one carriage return at its end. */
  predicate WellFormed(max: nat, f: WireFrame) {
    && ValidUtf8(f.body)
    && match f
       case Octets(body) => 1 <= |body| <= max
       case Line(body, crlf) =>
         && 0x0a !in body
         && (body != [] ==> !(0x31 <= body[0] <= 0x39))
         && (body != [] && !crlf ==> body[|body| - 1] != 0x0d)
         && |body| + (if crlf then 1 else 0) <= max
  }

  function WireAll(frames: seq<WireFrame>): bytes {
    if frames == [] then [] else Wire(frames[0]) + WireAll(frames[1..])
  }

  function BodiesOf(frames: seq<WireFrame>): seq<bytes> {
    seq(|frames|, i requires 0 <= i < |frames| => frames[i].body)
  }

  /** Octet counting starts on the bytes '1' to '9' and on no other. */
  lemma EnterExactly(src: bytes)
    ensures Enter(None, src).Some? <==> src != [] && 0x31 <= src[0] <= 0x39
    ensures Enter(None, src).Some? ==> Enter(None, src).value == NotDiscarding
  {
  }

  /** And in the reference: '0' opens a line. */
  lemma FrontExactly(max: nat, s: bytes)
    requires s != []
    ensures FrontOf(max, s) == if 0x31 <= s[0] <= 0x39 then OctetFront(max, s) else LineFront(max, s)
  {
    hide OctetFront, LineFront;
  }

  // ----------------------------------------------------------------------- the round trip

  lemma OctetsWire(body: bytes, t: bytes)
    ensures var digits := Decimal(|body|); var s := Wire(Octets(body)) + t;
            && Seek(s, SPACE) == |digits| < |s| && |digits| < Seek(s, NEWLINE)
            && s[..|digits|] == digits && s[|digits| + 1..] == body + t
  {
    hide Decimal, Seek, Wire;
    var digits, rest := Decimal(|body|), [SPACE] + (body + t);
    var s := digits + rest;
    assert s == Wire(Octets(body)) + t by { OctetsAre(body, t); }
    SeekAppend(digits, rest, SPACE);
    SeekAppend(digits, rest, NEWLINE);
    SeekIs(rest, SPACE, 0);
    assert s[..|digits|] == digits && s[|digits| + 1..] == body + t;
  }

  lemma OctetsAre(body: bytes, t: bytes)
    ensures Wire(Octets(body)) + t == Decimal(|body|) + ([SPACE] + (body + t))
  {
    hide Decimal;
    var digits := Decimal(|body|);
    Regroup(digits + [SPACE], body, t);
    Regroup(digits, [SPACE], body + t);
  }

  lemma Regroup(a: bytes, b: bytes, c: bytes)
    ensures (a + b) + c == a + (b + c)
  {
  }

  lemma OctetFrontIs(max: nat, s: bytes, space: nat, body: bytes, t: bytes)
    requires Seek(s, SPACE) == space < |s| && space < max && space < Seek(s, NEWLINE)
    requires s[space + 1..] == body + t && ParseUsize(s[..space]) == Some(|body|)
    requires |body| <= max && ValidUtf8(body)
    ensures OctetFront(max, s) == Whole(body, space + 1 + |body|)
  {
    hide ValidUtf8, ParseUsize, Seek;
    assert (body + t)[..|body|] == body;
  }

  lemma OctetsFront(max: nat, body: bytes, t: bytes)
    requires 1 <= |body| <= max <= USIZE_MAX && ValidUtf8(body) && 2 <= max
    ensures FrontOf(max, Wire(Octets(body)) + t) == Whole(body, |Wire(Octets(body))|)
  {
    hide ValidUtf8, Decimal, ParseUsize, Seek, OctetFront, LineFront;
    var digits := Decimal(|body|);
    var s := Wire(Octets(body)) + t;
    OctetsWire(body, t);
    ParseDecimal(|body|);
    OctetFrontIs(max, s, |digits|, body, t);
    assert s[0] == s[..|digits|][0];
  }

  /** The limit of two is exact: under a limit of one or none no counted frame, however
      short, can be read, because its length would have to end before the limit. */
  lemma CountedNeedsTwo(max: nat, body: bytes, t: bytes)
    requires 1 <= |body| <= max <= USIZE_MAX && ValidUtf8(body)
    ensures FrontOf(max, Wire(Octets(body)) + t) == Whole(body, |Wire(Octets(body))|) <==> max >= 2
  {
    if max >= 2 {
      OctetsFront(max, body, t);
    } else {
      var s := Wire(Octets(body)) + t;
      assert s[0] == Decimal(1)[0];
      assert Seek(s, SPACE) >= 1;
    }
  }

  lemma LineFrontOf(max: nat, body: bytes, crlf: bool, t: bytes)
    requires WellFormed(max, Line(body, crlf))
    ensures FrontOf(max, Wire(Line(body, crlf)) + t) == Whole(body, |Wire(Line(body, crlf))|)
  {
    var f := Line(body, crlf);
    var s := Wire(f) + t;
    var end := |Wire(f)| - 1;
    assert s[end] == NEWLINE;
    assert forall i | 0 <= i < |body| :: s[i] == body[i];
    assert crlf ==> s[|body|] == CR;
    SeekIs(s, NEWLINE, end);
    assert s[..end] == body + if crlf then [CR] else [];
    assert StripCr(s[..end]) == body by {
      if crlf {
        assert (body + [CR])[..|body|] == body;
      }
    }
  }

  lemma FrameFront(max: nat, f: WireFrame, t: bytes)
    requires 2 <= max <= USIZE_MAX && WellFormed(max, f)
    ensures Wire(f) != []
    ensures StreamSpec(max, Wire(f) + t) == Prepend([f.body], StreamSpec(max, t))
  {
    if f.Octets? {
      OctetsFront(max, f.body, t);
    } else {
      LineFrontOf(max, f.body, f.crlf, t);
    }
    hide FrontOf;
    assert (Wire(f) + t)[|Wire(f)|..] == t;
  }

  /** Round trip: the reference reads back exactly the frames a sender wrote, whatever
      follows them. */
  lemma {:induction false} RoundTrip(max: nat, frames: seq<WireFrame>, t: bytes)
    requires 2 <= max <= USIZE_MAX && forall f | f in frames :: WellFormed(max, f)
    ensures StreamSpec(max, WireAll(frames) + t) == Prepend(BodiesOf(frames), StreamSpec(max, t))
  {
    hide StreamSpec, WellFormed, Wire;
    if frames == [] {
      assert WireAll(frames) + t == t;
    } else {
      var f := frames[0];
      var later := WireAll(frames[1..]) + t;
      assert WireAll(frames) + t == Wire(f) + later;
      FrameFront(max, f, later);
      RoundTrip(max, frames[1..], t);
      var rest := StreamSpec(max, t);
      assert BodiesOf(frames) + rest.messages == [f.body] + (BodiesOf(frames[1..]) + rest.messages);
    }
  }

  /** For the framer alone: whatever the reads, a stream of well-formed frames gives
      its messages and no rejection. */
  lemma FramerRoundTrip(max: nat, frames: seq<WireFrame>, chunks: seq<bytes>)
    requires 2 <= max <= USIZE_MAX && forall f | f in frames :: WellFormed(max, f)
    requires Concat(chunks) == WireAll(frames)
    ensures var events := Run(max, FRESH, [], chunks).events;
            Heard(events) == BodiesOf(frames) && FirstTrouble(events).None?
  {
    hide WellFormed, Run, StreamSpec;
    RunFollows(max, FRESH, [], chunks);
    RoundTrip(max, frames, []);
    assert WireAll(frames) + [] == WireAll(frames) == [] + Concat(chunks);
    assert BodiesOf(frames) + [] == BodiesOf(frames);
    EmptySpec(max);
  }

  lemma EmptySpec(max: nat)
    ensures StreamSpec(max, []) == QUIET
  {
  }

  // ---------------------------------------------------------------------- the whole system

  /** `preamble` is a PROXY header naming `source` if the listener expects one, and
      nothing if it does not. */
  predicate Preamble(cfg: Config, preamble: bytes, source: Peer) {
    if cfg.proxyProtocol then
      Proxy.Parse(preamble, Proxy.MAX_PROXY_HEADER_BYTES) == Proxy.Complete(source, |preamble|)
    else preamble == [] && source == None
  }

  /** What the sender of a connection writes, of which some may still be on its way;
      the connection sees the end only after all of it. */
  predicate Sends(cfg: Config, c: Conn, preamble: bytes, frames: seq<WireFrame>) {
    var wire := preamble + WireAll(frames);
    && c.received <= wire
    && (c.eof ==> c.received == wire)
  }

  /** A handler has accepted the message. */
  predicate WasAccepted(h: Hold) {
    h.stage == Answered(Accepted) || LeavesAs(h.stage) == Some(Delivered)
  }

  /** Delivery was given up: for shutdown or for want of workers. */
  predicate WasGivenUp(h: Hold) {
    LeavesAs(h.stage).Some? && LeavesAs(h.stage).value.Abandoned?
  }

  /** The messages that handlers accepted, in the order of `holds`. */
  function AcceptedOf(holds: seq<Hold>): seq<Message> {
    if holds == [] then []
    else
      var n := |holds| - 1;
      AcceptedOf(holds[..n]) + if WasAccepted(holds[n]) then [holds[n].msg] else []
  }

  lemma {:induction false} AllAccepted(holds: seq<Hold>)
    requires forall h | h in holds :: WasAccepted(h)
    ensures AcceptedOf(holds) == MsgsOf(holds)
  {
    if holds != [] {
      var n := |holds| - 1;
      assert holds[n] in holds;
      AllAccepted(holds[..n]);
      assert MsgsOf(holds) == MsgsOf(holds[..n]) + [holds[n].msg];
    }
  }

  /** Header and peer, once the reader is past the header. */
  lemma HeaderAgrees(cfg: Config, c: Conn, preamble: bytes, source: Peer, frames: seq<WireFrame>)
    requires HeaderOk(cfg, c) && Started(c) && Preamble(cfg, preamble, source) && Sends(cfg, c, preamble, frames)
    ensures c.peer == if source.Some? then source else c.ownPeer
    ensures |c.header| == |preamble| <= |c.received|
  {
    hide Proxy.Parse;
    var wire := preamble + WireAll(frames);
    if cfg.proxyProtocol {
      Proxy.ParseStable(preamble, WireAll(frames), Proxy.MAX_PROXY_HEADER_BYTES);
      var t := wire[|c.received|..];
      assert c.received + t == wire;
      Proxy.ParseStable(c.received, t, Proxy.MAX_PROXY_HEADER_BYTES);
    }
  }

  lemma FramesSpec(max: nat, frames: seq<WireFrame>)
    requires 2 <= max <= USIZE_MAX && forall f | f in frames :: WellFormed(max, f)
    ensures StreamSpec(max, WireAll(frames)) == Transcript(BodiesOf(frames), Clean)
  {
    hide StreamSpec, WellFormed, WireAll, BodiesOf;
    RoundTrip(max, frames, []);
    EmptySpec(max);
    assert WireAll(frames) + [] == WireAll(frames) && BodiesOf(frames) + [] == BodiesOf(frames);
  }

  /** A framer following a stream whose reference is `messages` and a clean end. */
  lemma FollowsClean(max: nat, c: Conn, t: bytes, messages: seq<bytes>)
    requires |c.header| <= |c.received| && PositionOk(max, c) && TellsFuture(max, c, t)
    requires StreamSpec(max, Payload(c) + t) == Transcript(messages, Clean) && (c.eof ==> t == [])
    ensures c.fate.Following? && !Panicked(c.reader) && c.decoded <= messages
    ensures c.eof && Departed(c.reader) ==> c.decoded == messages
  {
    hide StreamSpec, SpecFrom, Waiting, InStep;
    if c.eof {
      assert c.buffer + t == c.buffer;
      assert c.decoded + [] == c.decoded;
    }
  }

  /** No rejection, and a prefix of the frames decoded: all of them once the reader has
      seen the end and left its loop. */
  lemma DecodedPrefix(cfg: Config, c: Conn, preamble: bytes, source: Peer, frames: seq<WireFrame>)
    requires 2 <= cfg.maxFrame <= USIZE_MAX && forall f | f in frames :: WellFormed(cfg.maxFrame, f)
    requires HeaderOk(cfg, c) && Started(c) && PositionOk(cfg.maxFrame, c)
    requires Preamble(cfg, preamble, source) && Sends(cfg, c, preamble, frames)
    requires TellsFuture(cfg.maxFrame, c, (preamble + WireAll(frames))[|c.received|..])
    ensures c.fate.Following? && !Panicked(c.reader) && c.decoded <= BodiesOf(frames)
    ensures c.eof && Departed(c.reader) ==> c.decoded == BodiesOf(frames)
  {
    hide HeaderOk, WellFormed, PositionOk, StreamSpec, TellsFuture, WireAll, BodiesOf, Preamble;
    HeaderAgrees(cfg, c, preamble, source, frames);
    var wire := preamble + WireAll(frames);
    var t := wire[|c.received|..];
    assert c.received == wire[..|c.received|];
    assert Payload(c) + t == WireAll(frames);
    FramesSpec(cfg.maxFrame, frames);
    FollowsClean(cfg.maxFrame, c, t, BodiesOf(frames));
  }

  /** The delivery task's `k`-th message is the `k`-th frame, from the right peer, and
      once it is settled it has been accepted or given up. */
  ghost predicate Handled(c: Conn, source: Peer, frames: seq<WireFrame>, k: nat)
    requires k < |Guarantees.Taken(c)|
  {
    var h := Guarantees.Taken(c)[k];
    && k < |frames|
    && h.msg.body == frames[k].body
    && h.msg.peer == (if source.Some? then source else c.ownPeer)
    && !(WasAccepted(h) && WasGivenUp(h))
    && (k < |c.settled| ==> WasAccepted(h) || WasGivenUp(h))
  }

  /** The same of a connection in a reachable state, by what it has read. */
  lemma ConnectionEndToEnd(cfg: Config, s: System, i: nat, preamble: bytes, source: Peer, frames: seq<WireFrame>)
    requires Reachable(cfg, s) && i < |s.tasks| && s.tasks[i].Serving?
    requires 2 <= cfg.maxFrame <= USIZE_MAX && forall f | f in frames :: WellFormed(cfg.maxFrame, f)
    requires Preamble(cfg, preamble, source) && Sends(cfg, s.tasks[i].conn, preamble, frames)
    ensures var c := s.tasks[i].conn;
            && (forall k: nat | k < |Guarantees.Taken(c)| :: Handled(c, source, frames, k))
            && (Started(c) ==> c.fate.Following? && !Panicked(c.reader))
            && (c.eof && c.reader.Gone? ==> |c.settled| == |Guarantees.Taken(c)| == |frames|)
            && (!s.cancelled && !c.workersGone ==>
                  && Bodies(AcceptedOf(Guarantees.Taken(c))) <= BodiesOf(frames)
                  && (c.eof && c.reader.Gone? ==> Bodies(AcceptedOf(c.settled)) == BodiesOf(frames)))
  {
    hide Reachable, WellFormed, Preamble, Sends, ConnOk, HeaderOk, PositionOk, TellsFuture, DecodedOk,
         WasAccepted, WasGivenUp, AcceptedOf, Started, Panicked;
    var c := s.tasks[i].conn;
    Guarantees.ConnAt(cfg, s, i);
    var taken := Guarantees.Taken(c);
    if Started(c) {
      WithinWire(cfg, c, preamble, frames);
      var t := (preamble + WireAll(frames))[|c.received|..];
      StreamFaithful(cfg, s, i, t);
      DecodedPrefix(cfg, c, preamble, source, frames);
      HeaderAgrees(cfg, c, preamble, source, frames);
      TakenInFront(cfg, s.cancelled, s.shared.issued, c);
    } else {
      StreamFaithful(cfg, s, i, []);
      UnstartedTookNothing(cfg, s.cancelled, s.shared.issued, c);
      UnstartedNotEof(cfg, c);
    }
    forall k: nat | k < |taken| ensures Handled(c, source, frames, k) {
      AcceptedOrGivenUp(cfg, s.cancelled, s.shared.issued, c, k);
      assert Bodies(MsgsOf(taken))[k] == taken[k].msg.body == BodiesOf(frames)[k];
      assert MsgsOf(taken)[k] in MsgsOf(taken);
    }
    if !s.cancelled && !c.workersGone {
      NothingAbandoned(cfg, s.shared.issued, c);
    }
  }

  lemma WithinWire(cfg: Config, c: Conn, preamble: bytes, frames: seq<WireFrame>)
    requires Sends(cfg, c, preamble, frames)
    ensures |c.received| <= |preamble + WireAll(frames)|
    ensures c.eof ==> (preamble + WireAll(frames))[|c.received|..] == []
  {
  }

  lemma UnstartedNotEof(cfg: Config, c: Conn)
    requires HeaderOk(cfg, c) && !Started(c)
    ensures !c.eof
  {
    hide Proxy.Parse;
  }

  lemma UnstartedTookNothing(cfg: Config, cancelled: bool, issued: int, c: Conn)
    requires ConnOk(cfg, cancelled, issued, c) && !Started(c)
    ensures Guarantees.Taken(c) == []
  {
    hide Order, HeadOfLine, HoldsOk, GivesUp;
  }

  /** Every message taken on is not both accepted and given up; every settled one is
      one of the two. */
  lemma AcceptedOrGivenUp(cfg: Config, cancelled: bool, issued: int, c: Conn, k: nat)
    requires ConnOk(cfg, cancelled, issued, c) && k < |Guarantees.Taken(c)|
    ensures var h := Guarantees.Taken(c)[k];
            && !(WasAccepted(h) && WasGivenUp(h))
            && (k < |c.settled| ==> WasAccepted(h) || WasGivenUp(h))
  {
    hide Shape, Order, HeadOfLine, GivesUp;
    if k < |c.settled| {
      assert c.settled[k] in c.settled;
    }
  }

  /** Without shutdown or worker loss every settled message was accepted, so that the
      accepted messages are a prefix of those taken on. */
  lemma NothingAbandoned(cfg: Config, issued: int, c: Conn)
    requires ConnOk(cfg, false, issued, c) && !c.workersGone
    ensures AcceptedOf(c.settled) == MsgsOf(c.settled)
    ensures Bodies(AcceptedOf(Guarantees.Taken(c))) <= Bodies(MsgsOf(Guarantees.Taken(c)))
  {
    hide Shape, Order, HeadOfLine, AcceptedOf;
    forall h | h in c.settled ensures WasAccepted(h) {
      var j :| 0 <= j < |c.settled| && c.settled[j] == h;
      NoLoss(c.settled, j);
      assert NeverTried(c.settled[j]) <==> j > FirstLoss(c.settled);
    }
    AllAccepted(c.settled);
    OneMore(c.settled, c.courier);
  }

  lemma OneMore(settled: seq<Hold>, k: Courier)
    requires AcceptedOf(settled) == MsgsOf(settled)
    ensures var taken := settled + if k.Holding? then [k.hold] else [];
            Bodies(AcceptedOf(taken)) <= Bodies(MsgsOf(taken))
  {
    var taken := settled + if k.Holding? then [k.hold] else [];
    if k.Holding? {
      assert taken[..|settled|] == settled;
    } else {
      assert taken == settled;
    }
  }

  lemma {:induction false} NoLoss(holds: seq<Hold>, j: nat)
    requires j < |holds| && FirstLoss(holds) == |holds|
    ensures !LostWorkers(holds[j])
  {
    var n := |holds| - 1;
    if j < n {
      NoLoss(holds[..n], j);
    }
  }

  /** The messages taken on are the first of the decoded ones and carry the
      connection's peer; once it is gone all of them are settled. */
  lemma TakenInFront(cfg: Config, cancelled: bool, issued: int, c: Conn)
    requires ConnOk(cfg, cancelled, issued, c)
    ensures var msgs := MsgsOf(Guarantees.Taken(c));
            && Bodies(msgs) <= c.decoded
            && (forall m | m in msgs :: m.peer == c.peer)
            && (c.reader.Gone? ==> Guarantees.Taken(c) == c.settled && Bodies(msgs) == c.decoded)
  {
    hide HeadOfLine, HoldsOk, GivesUp;
    var msgs, others := MsgsOf(Guarantees.Taken(c)), c.channel + ReaderMsgs(c.reader);
    assert Msgs(c) == msgs + others;
    assert Bodies(Msgs(c)) == Bodies(msgs) + Bodies(others);
    forall m | m in msgs ensures m.peer == c.peer {
      assert m in Msgs(c);
    }
    if c.reader.Gone? {
      assert others == [];
    }
  }

  // ------------------------------------------------------------------------------ whole runs

  /** The header a sender writes: one if the listener expects it, within the limit. */
  predicate Expected(cfg: Config, header: Option<Proxy.Header>) {
    if cfg.proxyProtocol then
      header.Some? && Proxy.Writable(header.value) && |Proxy.Encode(header.value)| <= 1024
    else header.None?
  }

  function Opening(cfg: Config, header: Option<Proxy.Header>): bytes
    requires Expected(cfg, header)
  {
    if header.Some? then Proxy.Encode(header.value) else []
  }

  function ClientOf(header: Option<Proxy.Header>): Peer {
    if header.Some? then Proxy.Client(header.value) else None
  }

  lemma ExpectedIsPreamble(cfg: Config, header: Option<Proxy.Header>)
    requires Expected(cfg, header)
    ensures Preamble(cfg, Opening(cfg, header), ClientOf(header))
  {
    hide Proxy.Parse, Proxy.Encode, Proxy.Client;
    if header.Some? {
      var opening := Proxy.Encode(header.value);
      Proxy.ParseEncoded(header.value, [], 1024);
      assert opening + [] == opening;
    }
  }

  /** Frame `j` of a connection, as it stands with message `h`: the same text, from this
      peer; accepted if and only if a handler said so; and once settled, accepted or
      given up. */
  predicate Delivers(h: Hold, settled: bool, peer: Peer, f: WireFrame) {
    && h.msg.body == f.body && h.msg.peer == peer
    && (WasAccepted(h) <==> Accepted in Verdicts(h))
    && !(WasAccepted(h) && WasGivenUp(h))
    && (settled ==> WasAccepted(h) || WasGivenUp(h))
  }

  /** End to end. Take any run: its labels are the connections accepted, the bytes read,
      the answers given. On the k-th connection that a listener spawned, a sender writes
      a PROXY header (or none) and any well-formed frames, of which some may still be on
      their way. However the bytes are cut into reads and the tasks interleave, the
      messages taken on are the first frames, in order. Their peer is the client that
      the header names, and otherwise that of the k-th accept within the limit. Their
      verdicts, message after message, are the answers given to the connection, and each
      settled one was accepted or given up. The reader leaves before the end only if the
      connection fails or the server stops. Once the connection has read to the end and
      is gone, that is every frame. And as long as no shutdown was begun and no worker
      lost, none is given up: the accepted ones are themselves the first frames, and at
      the end all of them. */
  lemma EndToEnd(cfg: Config, streams: nat, datagrams: bool, run: seq<Step>, l: nat, k: nat,
                 header: Option<Proxy.Header>, frames: seq<WireFrame>)
    requires Execute(cfg, Initial(cfg, streams, datagrams), run).Some?
    requires var tasks := After(cfg, streams, datagrams, run).tasks; l < |tasks| && tasks[l].Listener?
    requires k < |Inputs(cfg, streams, datagrams, run, l).spawned|
    requires 2 <= cfg.maxFrame <= USIZE_MAX && forall f | f in frames :: WellFormed(cfg.maxFrame, f)
    requires Expected(cfg, header)
    requires var i := Inputs(cfg, streams, datagrams, run, l).spawned[k];
             var r := Inputs(cfg, streams, datagrams, run, i); var wire := Opening(cfg, header) + WireAll(frames);
             r.read <= wire && (r.ended ==> r.read == wire)
    ensures var door := Inputs(cfg, streams, datagrams, run, l); var i := door.spawned[k];
            var tasks := After(cfg, streams, datagrams, run).tasks; var r := Inputs(cfg, streams, datagrams, run, i);
            var client := ClientOf(header);
            && k < |door.admitted| && i < |tasks| && tasks[i].Serving?
            && var c := tasks[i].conn; var taken := Guarantees.Taken(c);
               && |taken| <= |frames|
               && (forall j | 0 <= j < |taken| ::
                     Delivers(taken[j], j < |c.settled|, if client.Some? then client else door.admitted[k], frames[j]))
               && AllVerdicts(taken) == r.answers
               && (Departed(c.reader) && Started(c) && !r.left ==> r.ended)
               && (r.ended && c.reader.Gone? ==> |c.settled| == |taken| == |frames|)
               && (Cancel !in run && !r.lost ==>
                     && Bodies(AcceptedOf(taken)) <= BodiesOf(frames)
                     && (r.ended && c.reader.Gone? ==> Bodies(AcceptedOf(c.settled)) == BodiesOf(frames)))
  {
    hide Execute, Recorded, WellFormed, Expected, Preamble, Handled, AcceptedOf, AllVerdicts, Inv;
    var s := After(cfg, streams, datagrams, run);
    ConnectionsFromAccepts(cfg, streams, datagrams, run, l);
    var door := Inputs(cfg, streams, datagrams, run, l);
    var i, peer := door.spawned[k], door.admitted[k];
    assert ConnectionFrom(s.tasks, i, peer);
    ConnectionInputs(cfg, streams, datagrams, run, i);
    SoundAt(cfg, streams, datagrams, run);
    ShutdownBegun(cfg, streams, datagrams, run);
    ExpectedIsPreamble(cfg, header);
    ConnectionEndToEnd(cfg, s, i, Opening(cfg, header), ClientOf(header), frames);
    var c := s.tasks[i].conn;
    forall j | 0 <= j < |Guarantees.Taken(c)|
      ensures j < |frames|
      ensures Delivers(Guarantees.Taken(c)[j], j < |c.settled|,
                       if ClientOf(header).Some? then ClientOf(header) else peer, frames[j])
    {
      HandledDelivers(cfg, s, i, ClientOf(header), frames, j);
    }
    assert |Guarantees.Taken(c)| <= |frames| by {
      if |Guarantees.Taken(c)| > |frames| {
        HandledDelivers(cfg, s, i, ClientOf(header), frames, |frames|);
      }
    }
  }

  lemma HandledDelivers(cfg: Config, s: System, i: nat, source: Peer, frames: seq<WireFrame>, j: nat)
    requires Reachable(cfg, s) && i < |s.tasks| && s.tasks[i].Serving?
    requires j < |Guarantees.Taken(s.tasks[i].conn)| && Handled(s.tasks[i].conn, source, frames, j)
    ensures var c := s.tasks[i].conn;
            && j < |frames|
            && Delivers(Guarantees.Taken(c)[j], j < |c.settled|, if source.Some? then source else c.ownPeer, frames[j])
  {
    hide Reachable, Order, HeadOfLine, GivesUp, Shape, Verdicts, HoldOk, LeavesAs;
    var c := s.tasks[i].conn;
    Guarantees.ConnAt(cfg, s, i);
    if j < |c.settled| {
      assert c.settled[j] in c.settled;
    }
    AcceptedOnce(true, s.cancelled, Guarantees.Taken(c)[j]);
  }

  /** Emission safety in the running system: every stream message that ever got an id
      is valid UTF-8 and within the limit. */
  lemma EmissionSafe(cfg: Config, s: System, i: nat, m: Message)
    requires Reachable(cfg, s) && i < |s.tasks| && s.tasks[i].Serving? && m in Msgs(s.tasks[i].conn)
    ensures ValidUtf8(m.body) && |m.body| <= cfg.maxFrame
  {
    hide Reachable, HeaderOk, PositionOk, TellsFuture, Shape, HeadOfLine, HoldsOk, GivesUp;
    var c := s.tasks[i].conn;
    Guarantees.ConnAt(cfg, s, i);
    StreamFaithful(cfg, s, i, []);
    var j :| 0 <= j < |Msgs(c)| && Msgs(c)[j] == m;
    assert Bodies(Msgs(c))[j] == m.body;
    assert c.decoded[j] == m.body;
    assert m.body in c.decoded;
  }
}
