/** The stream framer: RFC 6587 octet counting with a newline fallback. */
module Framing {
  import opened Bytes

  datatype RejectReason = Oversize | InvalidUtf8 | InvalidLength

  /** After a fatal error the connection closes; after a recoverable one reading goes
      on behind the rejected line. */
  datatype FrameError = FrameError(reason: RejectReason, fatal: bool)

  /** What an octet counted frame in progress is doing. */
  datatype OctetState = NotDiscarding | Discarding(chars: nat) | DiscardingToEol

  /** `Result<Option<Bytes>, FrameError>`, or a panic of the line codec. */
  datatype Decoded = Frame(body: bytes) | More | Rejected(error: FrameError) | Panic

  /** The line codec's own state: whether it is skipping to the end of an oversize
      line, and how many bytes of its buffer it has searched for a newline. */
  datatype LineState = LineState(skipping: bool, index: nat)

  const START := LineState(false, 0)
  const SKIPPING := LineState(true, 0)

  /** The state kept between calls: the octet decoder's and the line codec's. */
  datatype FramerState = FramerState(octet: Option<OctetState>, line: LineState)

  const FRESH := FramerState(None, START)

  /** Outcome of one call: what it returned, the state it left, the bytes it
      left in the buffer. */
  datatype Turn = Turn(out: Decoded, state: FramerState, rest: bytes)

  function FatalError(reason: RejectReason): Decoded {
    Rejected(FrameError(reason, true))
  }

  function StripCr(line: bytes): (r: bytes)
    ensures |r| <= |line|
  {
    if line != [] && line[|line| - 1] == CR then line[..|line| - 1] else line
  }

  /** `body` if it is UTF-8, and the fatal error otherwise. */
  function Checked(body: bytes): Decoded {
    if ValidUtf8(body) then Frame(body) else FatalError(InvalidUtf8)
  }

  /** `octet_decode`. */
  function OctetTurn(max: nat, octet: OctetState, line: LineState, src: bytes): (r: Turn)
    ensures |r.rest| <= |src|
    ensures r.state.line == line && !r.out.Panic?
    ensures r.out.Rejected? ==> r.out.error.fatal
    ensures r.out.Frame? ==> |r.rest| < |src|
  {
    var done := FramerState(None, line);
    var same := FramerState(Some(octet), line);
    var space := Seek(src, SPACE);
    var newline := Seek(src, NEWLINE);
    match octet
    case Discarding(chars) =>
      if |src| >= chars then Turn(FatalError(Oversize), done, src[chars..])
      else Turn(More, FramerState(Some(Discarding(chars - |src|)), line), [])
    case DiscardingToEol =>
      if newline < |src| then Turn(FatalError(Oversize), done, src[newline + 1..])
      else Turn(More, same, [])
    case NotDiscarding =>
      if space < |src| && space < max then
        match ParseUsize(src[..space])
        case None => Turn(FatalError(InvalidLength), done, src[space + 1..])
        case Some(len) =>
          if len > max then Turn(More, FramerState(Some(Discarding(len)), line), src[space + 1..])
          else if space + 1 + len <= |src| then
            Turn(Checked(src[space + 1..space + 1 + len]), done, src[space + 1 + len..])
          else Turn(More, same, src)
      else if newline < |src| then Turn(FatalError(Oversize), same, src[newline + 1..])
      else if |src| < max then Turn(More, same, src)
      else Turn(More, FramerState(Some(DiscardingToEol), line), [])
  }

  /** How far into the buffer the line codec looks for a newline. */
  function ReadTo(max: nat, src: bytes): nat {
    if |src| <= max then |src| else max + 1
  }

  /** A line at the front of `src`, whose newline is looked for from `index` on. */
  function ReadLine(max: nat, eof: bool, index: nat, src: bytes): (r: Turn)
    requires index <= ReadTo(max, src)
    ensures |r.rest| <= |src| && !r.out.Panic?
    ensures r.out.Frame? ==> |r.rest| < |src|
    ensures r.out.Rejected? && !r.out.error.fatal ==> r.state.line.skipping
  {
    var newline := SeekFrom(src, NEWLINE, index);
    if newline < |src| && newline <= max then
      Turn(Checked(StripCr(src[..newline])), FRESH, src[newline + 1..])
    else if |src| > max then
      Turn(Rejected(FrameError(Oversize, false)), FramerState(None, LineState(true, index)), src)
    else if eof && src != [] && src != [CR] then
      Turn(Checked(StripCr(src)), FRESH, [])
    else Turn(More, FramerState(None, LineState(false, if eof then 0 else |src|)), src)
  }

  /** The contract assumed of `LinesCodec`: skip the rest of an oversize line,
      split at the first newline not searched before, strip one carriage return,
      and at end of stream release an unterminated line. It trusts its index: one
      behind the end of what it is to search is a slice out of order. */
  function LineTurn(max: nat, eof: bool, line: LineState, src: bytes): (r: Turn)
    ensures |r.rest| <= |src|
    ensures r.out.Frame? ==> |r.rest| < |src|
    ensures r.out.Rejected? && !r.out.error.fatal ==> r.state.line.skipping && (|r.rest| < |src| || !line.skipping)
    ensures r.out.Panic? <==> line.index > ReadTo(max, src)
  {
    if line.index > ReadTo(max, src) then Turn(Panic, FramerState(None, line), src)
    else if !line.skipping then ReadLine(max, eof, line.index, src)
    else
      var newline := SeekFrom(src, NEWLINE, line.index);
      if newline == |src| then Turn(More, FramerState(None, SKIPPING), [])
      else ReadLine(max, eof, 0, src[newline + 1..])
  }

  /** The first half of `checked_decode`: a framer with nothing in hand starts
      an octet counted frame when the buffer opens with a non-zero digit. */
  function Enter(octet: Option<OctetState>, src: bytes): Option<OctetState> {
    if octet.None? && src != [] && IsCountStart(src[0]) then Some(NotDiscarding) else octet
  }

  /** `decode` (and, with `eof`, `decode_eof`). */
  function DecodeTurn(max: nat, eof: bool, state: FramerState, src: bytes): (r: Turn)
    ensures |r.rest| <= |src|
    ensures r.out.Frame? ==> |r.rest| < |src|
    ensures r.out.Rejected? && !r.out.error.fatal ==>
              r.state.line.skipping && (|r.rest| < |src| || !state.line.skipping)
  {
    match Enter(state.octet, src)
    case Some(octet) => OctetTurn(max, octet, state.line, src)
    case None => LineTurn(max, eof, state.line, src)
  }

  // ------------------------------------------------------------ the framer object

  /** `BytesMut`: the read buffer, consumed from the front. */
  class Buffer {
    var data: bytes

    constructor (data: bytes)
      ensures this.data == data
    {
      this.data := data;
    }

    method Advance(count: nat)
      requires count <= |data|
      modifies this
      ensures data == old(data)[count..]
    {
      data := data[count..];
    }

    /** `read_buf`: append what the socket delivered. */
    method Put(chunk: bytes)
      modifies this
      ensures data == old(data) + chunk
    {
      data := data + chunk;
    }
  }

  class Framer {
    const maxLength: nat
    var octetDecoding: Option<OctetState>
    /** The line codec's own fields. */
    var lineSkipping: bool
    var lineIndex: nat

    function State(): FramerState
      reads this
    {
      FramerState(octetDecoding, LineState(lineSkipping, lineIndex))
    }

    constructor (maxLength: nat)
      ensures this.maxLength == maxLength && State() == FRESH
    {
      this.maxLength := maxLength;
      octetDecoding := None;
      lineSkipping, lineIndex := false, 0;
    }

    method Decode(src: Buffer) returns (out: Decoded)
      modifies this, src
      ensures Turn(out, State(), src.data) == DecodeTurn(maxLength, false, old(State()), old(src.data))
    {
      var handled;
      handled, out := CheckedDecode(src);
      if !handled {
        out := LineDecode(src, false);
      }
    }

    method DecodeEof(src: Buffer) returns (out: Decoded)
      modifies this, src
      ensures Turn(out, State(), src.data) == DecodeTurn(maxLength, true, old(State()), old(src.data))
    {
      var handled;
      handled, out := CheckedDecode(src);
      if !handled {
        out := LineDecode(src, true);
      }
    }

    /** `handled` tells whether the octet decoder took the call; if not, nothing moved. */
    method CheckedDecode(src: Buffer) returns (handled: bool, out: Decoded)
      modifies this, src
      ensures handled == Enter(old(octetDecoding), old(src.data)).Some?
      ensures handled ==> Turn(out, State(), src.data)
                          == DecodeTurn(maxLength, false, old(State()), old(src.data))
      ensures !handled ==> State() == old(State()) && src.data == old(src.data)
    {
      if octetDecoding == None && src.data != [] && IsCountStart(src.data[0]) {
        octetDecoding := Some(NotDiscarding);
      }
      handled := octetDecoding.Some?;
      out := More;
      if handled {
        out := OctetDecode(octetDecoding.value, src);
      }
    }

    method OctetDecode(state: OctetState, src: Buffer) returns (out: Decoded)
      requires octetDecoding == Some(state)
      modifies this, src
      ensures Turn(out, State(), src.data) == OctetTurn(maxLength, state, old(State().line), old(src.data))
    {
      var space := Position(src.data, SPACE);
      var newline := Position(src.data, NEWLINE);
      match state
      case Discarding(chars) =>
        if |src.data| >= chars {
          src.Advance(chars);
          octetDecoding := None;
          return FatalError(Oversize);
        }
        octetDecoding := Some(Discarding(chars - |src.data|));
        src.Advance(|src.data|);
        return More;
      case DiscardingToEol =>
        if newline < |src.data| {
          src.Advance(newline + 1);
          octetDecoding := None;
          return FatalError(Oversize);
        }
        src.Advance(|src.data|);
        return More;
      case NotDiscarding =>
        if space < |src.data| && space < maxLength {
          out := CountedFrame(space, src);
        } else if newline < |src.data| {
          // A newline, and no space that could end a length.
          src.Advance(newline + 1);
          return FatalError(Oversize);
        } else if |src.data| < maxLength {
          return More;
        } else {
          // Neither newline nor usable space in a full buffer.
          octetDecoding := Some(DiscardingToEol);
          src.Advance(|src.data|);
          return More;
        }
    }

    /** The arm of `octet_decode` that has found the end of a length. */
    method CountedFrame(space: nat, src: Buffer) returns (out: Decoded)
      requires octetDecoding == Some(NotDiscarding)
      requires space == Seek(src.data, SPACE) && space < |src.data| && space < maxLength
      modifies this, src
      ensures Turn(out, State(), src.data) == OctetTurn(maxLength, NotDiscarding, old(State().line), old(src.data))
    {
      var length := ParseUsize(src.data[..space]);
      if length.None? {
        src.Advance(space + 1);
        octetDecoding := None;
        return FatalError(InvalidLength);
      }
      var from := space + 1;
      if length.value > maxLength {
        octetDecoding := Some(Discarding(length.value));
        src.Advance(from);
        return More;
      }
      var to := from + length.value;
      if to > |src.data| {
        return More;
      }
      out := Checked(src.data[from..to]);
      src.Advance(to);
      octetDecoding := None;
    }

    /** `LinesCodec::decode` and `decode_eof`. */
    method LineDecode(src: Buffer, eof: bool) returns (out: Decoded)
      requires octetDecoding == None
      modifies this, src
      ensures Turn(out, State(), src.data) == LineTurn(maxLength, eof, old(State().line), old(src.data))
    {
      hide ReadLine, Seek;
      if lineIndex > ReadTo(maxLength, src.data) {
        return Panic;
      }
      if lineSkipping {
        var newline := Position(src.data[lineIndex..], NEWLINE);
        newline := lineIndex + newline;
        lineIndex := 0;
        if newline == |src.data| {
          src.Advance(|src.data|);
          return More;
        }
        src.Advance(newline + 1);
        lineSkipping := false;
      }
      out := TakeLine(src, eof);
    }

    /** The part of the codec that is not skipping. */
    method TakeLine(src: Buffer, eof: bool) returns (out: Decoded)
      requires octetDecoding == None && !lineSkipping && lineIndex <= ReadTo(maxLength, src.data)
      modifies this, src
      ensures Turn(out, State(), src.data) == ReadLine(maxLength, eof, old(lineIndex), old(src.data))
    {
      hide Checked, Seek;
      var newline := Position(src.data[lineIndex..], NEWLINE);
      newline := lineIndex + newline;
      if newline < |src.data| && newline <= maxLength {
        out := Checked(StripCr(src.data[..newline]));
        src.Advance(newline + 1);
        lineIndex := 0;
      } else if |src.data| > maxLength {
        lineSkipping := true;
        return Rejected(FrameError(Oversize, false));
      } else if eof && src.data != [] && src.data != [CR] {
        out := Checked(StripCr(src.data));
        src.Advance(|src.data|);
        lineIndex := 0;
      } else {
        lineIndex := if eof then 0 else |src.data|;
        return More;
      }
    }
  }
}
