/** The PROXY v2 header a load balancer puts in front of a connection (section
    2.2 of the PROXY protocol specification, versions 1 and 2). */
module Proxy {
  import opened Bytes

  const SIGNATURE: bytes := [0x0d, 0x0a, 0x0d, 0x0a, 0x00, 0x0d, 0x0a, 0x51, 0x55, 0x49, 0x54, 0x0a]
  /** "PROXY ", the start of the text header of version 1. */
  const V1_SIGNATURE: bytes := [0x50, 0x52, 0x4f, 0x58, 0x59, 0x20]
  const PREFIX_LEN: nat := 16
  const MAX_PROXY_HEADER_BYTES: nat := 1024

  datatype IpAddr = V4(octets: bytes) | V6(octets: bytes)

  datatype ProxyError = Signature | Version | Command | Family | TooLong

  /** `Result<ProxyHeader, ProxyError>`. */
  datatype Parsed = Incomplete | Complete(source: Option<IpAddr>, length: nat) | Failed(error: ProxyError)

  /** The two strings agree as far as they both go. */
  predicate Matches(buf: bytes, pattern: bytes) {
    if |buf| <= |pattern| then buf <= pattern else pattern <= buf
  }

  /** The source named by a complete address block. */
  function Source(command: nat, family: byte, address: bytes): (r: Parsed)
    ensures r.Complete? ==> r.length == PREFIX_LEN + |address|
  {
    var length := PREFIX_LEN + |address|;
    if command == 0 then Complete(None, length)
    else if family == 0x11 || family == 0x12 then
      if |address| < 12 then Failed(Family) else Complete(Some(V4(address[..4])), length)
    else if family == 0x21 || family == 0x22 then
      if |address| < 36 then Failed(Family) else Complete(Some(V6(address[..16])), length)
    else if family == 0x00 || family == 0x31 || family == 0x32 then Complete(None, length)
    else Failed(Family)
  }

  function AddressLength(buf: bytes): nat
    requires |buf| >= PREFIX_LEN
  {
    256 * buf[14] as nat + buf[15] as nat
  }

  /** `parse`. */
  function Parse(buf: bytes, max: nat): (r: Parsed)
    ensures r.Complete? ==> PREFIX_LEN <= r.length <= max && r.length <= |buf|
  {
    if buf == [] then Incomplete
    else if Matches(buf, V1_SIGNATURE) then Failed(Version)
    else if !Matches(buf, SIGNATURE) then Failed(Signature)
    else if |buf| < PREFIX_LEN then Incomplete
    else
      var version := buf[12] as nat / 16;
      var command := buf[12] as nat % 16;
      var length := PREFIX_LEN + AddressLength(buf);
      if version != 2 then Failed(Version)
      else if command > 1 then Failed(Command)
      else if length > max then Failed(TooLong)
      else if |buf| < length then Incomplete
      else Source(command, buf[13], buf[PREFIX_LEN..length])
  }

  // ------------------------------------------------------------ the header encoder

  /** Any header of this shape, as it is on the wire: the twelve bytes of the signature,
      version and command, family, the length of the address block, the block. */
  function Wire(version: nat, command: nat, family: byte, address: bytes): bytes
    requires version < 16 && command < 16 && |address| < 65536
  {
    [0x0d, 0x0a, 0x0d, 0x0a, 0x00, 0x0d, 0x0a, 0x51, 0x55, 0x49, 0x54, 0x0a]
    + [(16 * version + command) as byte, family, (|address| / 256) as byte, (|address| % 256) as byte] + address
  }

  /** A family whose address block is not of this length, or no family at all. */
  predicate Unreadable(family: byte, length: nat) {
    match family
    case 0x11 => length < 12
    case 0x12 => length < 12
    case 0x21 => length < 36
    case 0x22 => length < 36
    case _ => family != 0x00 && family != 0x31 && family != 0x32
  }

  lemma WireParts(version: nat, command: nat, family: byte, address: bytes, payload: bytes)
    requires version < 16 && command < 16 && |address| < 65536
    ensures var buf := Wire(version, command, family, address) + payload;
            && |buf| == 16 + |address| + |payload| && buf[..12] == SIGNATURE && buf[0] == 0x0d
            && buf[12] as nat == 16 * version + command && buf[13] == family && AddressLength(buf) == |address|
            && buf[16..16 + |address|] == address
  {
    var buf := Wire(version, command, family, address) + payload;
    assert buf[..12] == SIGNATURE;
    assert buf[16..16 + |address|] == address;
  }

  /** Of any header with anything after it, the parser refuses the version, the command,
      the size or the family it must refuse, and takes every other. */
  lemma ParseHeader(version: nat, command: nat, family: byte, address: bytes, payload: bytes, max: nat)
    requires version < 16 && command < 16 && |address| < 65536
    ensures var parsed := Parse(Wire(version, command, family, address) + payload, max);
            if version != 2 then parsed == Failed(Version)
            else if command > 1 then parsed == Failed(Command)
            else if 16 + |address| > max then parsed == Failed(TooLong)
            else if command == 1 && Unreadable(family, |address|) then parsed == Failed(Family)
            else parsed.Complete? && parsed.length == 16 + |address|
  {
    hide Wire;
    var buf := Wire(version, command, family, address) + payload;
    WireParts(version, command, family, address, payload);
    assert V1_SIGNATURE[0] == 0x50;
    assert !Matches(buf, V1_SIGNATURE);
    assert Matches(buf, SIGNATURE);
  }

  /** What a balancer says of a connection: nothing (a check of its own), the two ends of
      a TCP or UDP connection over IPv4 or IPv6, or that they have no network address;
      any extensions follow. */
  datatype Header =
    | Local(family: byte, block: bytes)
    | Inet(udp: bool, source: bytes, destination: bytes, sourcePort: bytes, destinationPort: bytes, extra: bytes)
    | Inet6(udp: bool, source: bytes, destination: bytes, sourcePort: bytes, destinationPort: bytes, extra: bytes)
    | Unnamed(family: byte, block: bytes)

  function AddressBlock(h: Header): bytes {
    match h
    case Local(_, block) => block
    case Inet(_, source, destination, sourcePort, destinationPort, extra) =>
      source + destination + sourcePort + destinationPort + extra
    case Inet6(_, source, destination, sourcePort, destinationPort, extra) =>
      source + destination + sourcePort + destinationPort + extra
    case Unnamed(_, block) => block
  }

  predicate Writable(h: Header) {
    && |AddressBlock(h)| < 65536
    && match h
       case Local(_, _) => true
       case Inet(_, source, destination, sourcePort, destinationPort, _) =>
         |source| == |destination| == 4 && |sourcePort| == |destinationPort| == 2
       case Inet6(_, source, destination, sourcePort, destinationPort, _) =>
         |source| == |destination| == 16 && |sourcePort| == |destinationPort| == 2
       case Unnamed(family, _) => family == 0x00 || family == 0x31 || family == 0x32
  }

  function Encode(h: Header): bytes
    requires Writable(h)
  {
    match h
    case Local(family, block) => Wire(2, 0, family, block)
    case Inet(udp, _, _, _, _, _) => Wire(2, 1, if udp then 0x12 else 0x11, AddressBlock(h))
    case Inet6(udp, _, _, _, _, _) => Wire(2, 1, if udp then 0x22 else 0x21, AddressBlock(h))
    case Unnamed(family, block) => Wire(2, 1, family, block)
  }

  /** The client's address, if the header names one. */
  function Client(h: Header): Option<IpAddr> {
    match h
    case Inet(_, source, _, _, _, _) => Some(V4(source))
    case Inet6(_, source, _, _, _, _) => Some(V6(source))
    case _ => None
  }

  /** Parsing undoes encoding: whatever follows the header, the parser reads back the
      client's address, and finds the end of the header. */
  lemma ParseEncoded(h: Header, payload: bytes, max: nat)
    requires Writable(h)
    ensures Parse(Encode(h) + payload, max)
            == if |Encode(h)| > max then Failed(TooLong) else Complete(Client(h), |Encode(h)|)
  {
    hide Wire, Parse;
    var address := AddressBlock(h);
    match h
    case Local(family, _) => NamedSource(0, family, address, payload, max);
    case Inet(udp, source, _, _, _, _) =>
      NamedSource(1, if udp then 0x12 else 0x11, address, payload, max);
      assert address[..4] == source;
    case Inet6(udp, source, _, _, _, _) =>
      NamedSource(1, if udp then 0x22 else 0x21, address, payload, max);
      assert address[..16] == source;
    case Unnamed(family, _) => NamedSource(1, family, address, payload, max);
  }

  lemma NamedSource(command: nat, family: byte, address: bytes, payload: bytes, max: nat)
    requires command < 2 && |address| < 65536
    ensures |Wire(2, command, family, address)| == 16 + |address|
    ensures Parse(Wire(2, command, family, address) + payload, max)
            == if 16 + |address| > max then Failed(TooLong) else Source(command, family, address)
  {
    hide Wire, Source;
    var buf := Wire(2, command, family, address) + payload;
    WireParts(2, command, family, address, payload);
    assert V1_SIGNATURE[0] == 0x50;
    assert !Matches(buf, V1_SIGNATURE);
    assert Matches(buf, SIGNATURE);
  }

  /** Every header the parser takes is one a balancer writes, for this client. */
  lemma CompleteIsEncoded(buf: bytes, max: nat) returns (h: Header)
    requires Parse(buf, max).Complete?
    ensures Writable(h) && buf[..Parse(buf, max).length] == Encode(h) && Parse(buf, max).source == Client(h)
  {
    hide Source, Encode, Client, Wire;
    CompleteIsWire(buf, max);
    h := HeaderOf(buf[12] as nat - 32, buf[13], buf[16..Parse(buf, max).length]);
  }

  lemma HeaderOf(command: nat, family: byte, address: bytes) returns (h: Header)
    requires command < 2 && |address| < 65536 && Source(command, family, address).Complete?
    ensures Writable(h) && Encode(h) == Wire(2, command, family, address)
    ensures Source(command, family, address).source == Client(h)
  {
    hide Wire;
    if command == 0 {
      h := Local(family, address);
    } else if family == 0x11 || family == 0x12 {
      h := Inet(family == 0x12, address[..4], address[4..8], address[8..10], address[10..12], address[12..]);
    } else if family == 0x21 || family == 0x22 {
      h := Inet6(family == 0x22, address[..16], address[16..32], address[32..34], address[34..36], address[36..]);
    } else {
      h := Unnamed(family, address);
    }
    assert AddressBlock(h) == address;
  }

  lemma CompleteIsWire(buf: bytes, max: nat)
    requires Parse(buf, max).Complete?
    ensures var length := Parse(buf, max).length;
            && 32 <= buf[12] < 34
            && buf[..length] == Wire(2, buf[12] as nat - 32, buf[13], buf[16..length])
  {
    var length := Parse(buf, max).length;
    var address := buf[16..length];
    assert SIGNATURE <= buf;
    assert buf[..12] == SIGNATURE;
    var fixed := buf[12..16];
    assert fixed == [buf[12], buf[13], (|address| / 256) as byte, (|address| % 256) as byte];
    assert buf[..length] == buf[..12] + fixed + address;
  }

  /** `buf` and `text` agree as far as both go. */
  predicate Agrees(buf: bytes, text: bytes) {
    forall i | 0 <= i < |buf| && i < |text| :: buf[i] == text[i]
  }

  /** When the parser waits and when it refuses what is in front of it: as soon as a byte
      differs from the signature, and otherwise not before the sixteenth byte. */
  lemma WaitsExactly(buf: bytes, max: nat)
    ensures var parsed := Parse(buf, max);
            var signed := Agrees(buf, [0x0d, 0x0a, 0x0d, 0x0a, 0x00, 0x0d, 0x0a, 0x51, 0x55, 0x49, 0x54, 0x0a]);
            var text := buf != [] && Agrees(buf, [0x50, 0x52, 0x4f, 0x58, 0x59, 0x20]);
            && (parsed == Failed(Signature) <==> !signed && !text)
            && (!signed && text ==> parsed == Failed(Version))
            && (parsed == Incomplete <==>
                  signed && (|buf| < 16
                             || (32 <= buf[12] < 34 && |buf| < 16 + 256 * buf[14] as nat + buf[15] as nat <= max)))
  {
    AgreesMatches(buf, SIGNATURE);
    AgreesMatches(buf, V1_SIGNATURE);
    if buf != [] {
      assert Agrees(buf, SIGNATURE) ==> buf[0] == 0x0d;
      assert Agrees(buf, V1_SIGNATURE) ==> buf[0] == 0x50;
    }
  }

  lemma AgreesMatches(buf: bytes, text: bytes)
    ensures Agrees(buf, text) <==> Matches(buf, text)
  {
  }

  // --------------------------------------------------------------- prefix stability

  /** The part of a v1 signature that is too short to rule the v2 one out for good. */
  predicate PartialV1(buf: bytes) {
    buf != [] && buf < V1_SIGNATURE
  }

  lemma MatchesExtend(buf: bytes, more: bytes, pattern: bytes)
    ensures Matches(buf + more, pattern) ==> Matches(buf, pattern)
    ensures |buf| >= |pattern| && Matches(buf, pattern) ==> Matches(buf + more, pattern)
  {
    var s := buf + more;
    if |buf| <= |pattern| && Matches(s, pattern) {
      if |s| <= |pattern| {
        assert buf == s[..|buf|] == pattern[..|buf|];
      } else {
        assert pattern == s[..|pattern|];
        assert buf == s[..|buf|] == pattern[..|buf|];
      }
    } else if |buf| >= |pattern| {
      assert s[..|pattern|] == buf[..|pattern|];
    }
  }

  lemma FixedPart(buf: bytes, more: bytes)
    requires |buf| >= PREFIX_LEN
    ensures forall i | 0 <= i < PREFIX_LEN :: (buf + more)[i] == buf[i]
    ensures AddressLength(buf + more) == AddressLength(buf)
    ensures PREFIX_LEN + AddressLength(buf) <= |buf| ==>
              (buf + more)[PREFIX_LEN..PREFIX_LEN + AddressLength(buf)]
              == buf[PREFIX_LEN..PREFIX_LEN + AddressLength(buf)]
  {
  }

  /** Reading on never changes an answer: a complete header stays complete with
      the same source and length, and an error stays an error, the same one
      except that the start of "PROXY " can turn out to be no header at all. */
  lemma ParseStable(buf: bytes, more: bytes, max: nat)
    ensures Parse(buf, max).Complete? ==> Parse(buf + more, max) == Parse(buf, max)
    ensures Parse(buf, max).Failed? ==>
              Parse(buf + more, max) == Parse(buf, max)
              || (PartialV1(buf) && Parse(buf, max) == Failed(Version) && Parse(buf + more, max) == Failed(Signature))
  {
    MatchesExtend(buf, more, V1_SIGNATURE);
    MatchesExtend(buf, more, SIGNATURE);
    if buf != [] {
      assert (buf + more)[0] == buf[0];
      assert Matches(buf, V1_SIGNATURE) ==> buf[0] == 0x50;
      assert Matches(buf + more, SIGNATURE) ==> buf[0] == 0x0d;
      if Matches(buf, SIGNATURE) && |buf| >= PREFIX_LEN {
        FixedPart(buf, more);
      }
    }
  }

  /** A complete header is exactly its own bytes: they are within the limit, they
      alone give the same answer, and nothing shorter does. */
  lemma CompleteIsExact(buf: bytes, max: nat, k: nat)
    requires Parse(buf, max).Complete?
    ensures var length := Parse(buf, max).length;
            && PREFIX_LEN <= length <= max && length <= |buf|
            && Parse(buf[..length], max) == Parse(buf, max)
            && (k < length ==> Parse(buf[..k], max) == Incomplete)
  {
    var length := Parse(buf, max).length;
    FixedPart(buf[..length], buf[length..]);
    assert buf[..length] + buf[length..] == buf;
    MatchesExtend(buf[..length], buf[length..], V1_SIGNATURE);
    MatchesExtend(buf[..length], buf[length..], SIGNATURE);
    if k < length {
      assert buf[..k] + buf[k..] == buf;
      ParseStable(buf[..k], buf[k..], max);
    }
  }

  // ------------------------------------------------------------------ the read loop

  /** How the header phase of a connection ends. */
  datatype HeaderResult = Got(source: Option<IpAddr>) | BadHeader(error: ProxyError) | ReadEof

  /** What reading a header from `chunks` may say, and leave: its answer is that of
      parsing all the bytes at once, except that the start of "PROXY " may be refused
      before it turns out to be no header at all; and after a header exactly the bytes
      behind it are left. */
  ghost predicate ReadAnswers(chunks: seq<bytes>, max: nat, result: HeaderResult, buffer: bytes, used: nat) {
    && used <= |chunks|
    && var whole := Parse(Concat(chunks), max);
       match result
       case Got(source) =>
         && whole.Complete? && source == whole.source
         && buffer + Concat(chunks[used..]) == Concat(chunks)[whole.length..]
       case BadHeader(error) =>
         || whole == Failed(error)
         || (error == Version && whole == Failed(Signature) && PartialV1(Concat(chunks[..used])))
       case ReadEof => whole == Incomplete
  }

  lemma CompleteAnswers(chunks: seq<bytes>, max: nat, buffer: bytes, used: nat)
    requires used <= |chunks| && buffer + Concat(chunks[used..]) == Concat(chunks) && Parse(buffer, max).Complete?
    ensures var p := Parse(buffer, max); ReadAnswers(chunks, max, Got(p.source), buffer[p.length..], used)
  {
    var length := Parse(buffer, max).length;
    assert length <= |buffer|;
    ParseStable(buffer, Concat(chunks[used..]), max);
    hide Parse;
    assert Concat(chunks)[length..] == buffer[length..] + Concat(chunks[used..]);
  }

  lemma FailedAnswers(chunks: seq<bytes>, max: nat, buffer: bytes, used: nat)
    requires used <= |chunks| && buffer + Concat(chunks[used..]) == Concat(chunks) && Parse(buffer, max).Failed?
    requires buffer == Concat(chunks[..used])
    ensures ReadAnswers(chunks, max, BadHeader(Parse(buffer, max).error), buffer, used)
  {
    hide Parse;
    ParseStable(buffer, Concat(chunks[used..]), max);
  }

  lemma ReadOn(chunks: seq<bytes>, used: nat)
    requires used < |chunks|
    ensures Concat(chunks[..used + 1]) == Concat(chunks[..used]) + chunks[used]
    ensures Concat(chunks[used..]) == chunks[used] + Concat(chunks[used + 1..])
  {
    ConcatSnoc(chunks[..used], chunks[used]);
    assert chunks[..used] + [chunks[used]] == chunks[..used + 1];
    assert chunks[used..][1..] == chunks[used + 1..];
  }

  /** `read_proxy_header` over the reads in `chunks` followed by end of stream. */
  method ReadProxyHeader(chunks: seq<bytes>, max: nat)
    returns (result: HeaderResult, buffer: bytes, used: nat)
    ensures ReadAnswers(chunks, max, result, buffer, used)
  {
    hide Parse;
    buffer, used := [], 0;
    while true
      invariant used <= |chunks|
      invariant buffer == Concat(chunks[..used])
      invariant buffer + Concat(chunks[used..]) == Concat(chunks)
      decreases |chunks| - used
    {
      match Parse(buffer, max)
      case Complete(source, length) =>
        CompleteAnswers(chunks, max, buffer, used);
        return Got(source), buffer[length..], used;
      case Failed(error) =>
        FailedAnswers(chunks, max, buffer, used);
        return BadHeader(error), buffer, used;
      case Incomplete =>
        if used == |chunks| {
          assert buffer + Concat(chunks[used..]) == buffer;
          return ReadEof, buffer, used;
        }
        ReadOn(chunks, used);
        buffer := buffer + chunks[used];
        used := used + 1;
    }
  }

  lemma {:induction false} ConcatSnoc(chunks: seq<bytes>, chunk: bytes)
    ensures Concat(chunks + [chunk]) == Concat(chunks) + chunk
  {
    if chunks == [] {
      assert Concat([chunk]) == chunk + Concat([chunk][1..]);
    } else {
      assert (chunks + [chunk])[1..] == chunks[1..] + [chunk];
      ConcatSnoc(chunks[1..], chunk);
    }
  }
}
