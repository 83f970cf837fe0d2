/** What every step of the delivery protocol keeps, task by task: where each message
    is, in what order, how often it was tried and why it left. */
module Protocol {
  import opened Bytes
  import opened Framing
  import opened Delivery

  // --------------------------------------------------------------------------- backoff

  function Pow2(k: nat): nat {
    if k == 0 then 1 else 2 * Pow2(k - 1)
  }

  /** The wait after the k-th refusal, counting from zero, in milliseconds. */
  function Backoff(k: nat): nat {
    if 5 * Pow2(k) <= 500 then 5 * Pow2(k) else 500
  }

  /** All the waiting before attempt `n + 1`. */
  function TotalBackoff(n: nat): nat {
    if n == 0 then 0 else TotalBackoff(n - 1) + Backoff(n - 1)
  }

  // ---------------------------------------------------------------- one message in hand

  /** What a message's history must look like once it leaves with outcome `o`. */
  predicate Concluded(stream: bool, cancelled: bool, h: Hold, o: Outcome) {
    match o
    case Delivered => |h.past| == h.attempt - 1 && h.offered == h.attempt
    case Abandoned(Shutdown) => stream && cancelled && |h.past| == h.attempt == h.offered
    case Abandoned(WorkersLost) => stream && |h.past| == h.attempt - 1 && |h.past| <= h.offered <= h.attempt
    case Abandoned(Unattempted) => stream && h.past == [] && h.offered == 0 && h.late == 0 && h.attempt == 1
    case Dropped => !stream && h.attempt == 1 && |h.past| <= h.offered <= 1
  }

  predicate StageOk(stream: bool, cancelled: bool, h: Hold) {
    match h.stage
    case Ready => |h.past| == h.attempt - 1 == h.offered && h.late == 0
    case Offering => |h.past| == h.attempt - 1 == h.offered
    case Awaiting => |h.past| == h.attempt - 1 && h.offered == h.attempt
    case Answered(_) => |h.past| == h.attempt - 1 && h.offered == h.attempt
    case TurnedDown => stream && |h.past| == h.attempt == h.offered
    case Sleeping => stream && |h.past| == h.attempt == h.offered && h.late == 0
    case Counting(o) => o != Delivered && Concluded(stream, cancelled, h, o)
    case Releasing(o) => Concluded(stream, cancelled, h, o)
    case Freeing(o) => Concluded(stream, cancelled, h, o)
    case Done(o) => Concluded(stream, cancelled, h, o)
  }

  /** The attempts of a message are numbered 1, 2, 3, ...; only the last can have
      been accepted; the waits follow the closed form; and at most one attempt
      began after shutdown. */
  predicate HoldOk(stream: bool, cancelled: bool, h: Hold) {
    && Accepted !in h.past
    && 1 <= h.attempt && (!stream ==> h.attempt == 1)
    && h.delay == Backoff(h.attempt - 1)
    && h.slept == TotalBackoff(h.attempt - 1)
    && h.late <= (if cancelled then 1 else 0)
    && StageOk(stream, cancelled, h)
  }

  function LostOutcome(stream: bool): Outcome {
    if stream then Abandoned(WorkersLost) else Dropped
  }

  lemma HoldKeeps(stream: bool, cancelled: bool, h: Hold, l: HoldStep)
    requires HoldOk(stream, cancelled, h)
    requires HoldNext(LostOutcome(stream), cancelled, h, l).Some?
    ensures HoldOk(stream, cancelled, HoldNext(LostOutcome(stream), cancelled, h, l).value.hold)
  {
    if l.Wake? {
      hide StageOk;
      WakeKeeps(stream, cancelled, h);
    } else {
      hide Backoff, TotalBackoff;
    }
  }

  lemma WakeKeeps(stream: bool, cancelled: bool, h: Hold)
    requires HoldOk(stream, cancelled, h) && h.stage.Sleeping?
    ensures HoldOk(stream, cancelled, HoldNext(LostOutcome(stream), cancelled, h, Wake).value.hold)
  {
    BackoffDoubles(h.attempt - 1);
    hide Backoff;
  }

  lemma BackoffDoubles(k: nat)
    ensures Backoff(k + 1) == if Backoff(k) * 2 <= 500 then Backoff(k) * 2 else 500
  {
  }

  /** The closed form is non-decreasing and within the two bounds. */
  lemma {:induction false} BackoffBounds(j: nat, k: nat)
    requires j <= k
    ensures 5 <= Backoff(j) <= Backoff(k) <= 500
    decreases k
  {
    if k == 0 {
    } else if j == k {
      BackoffBounds(k - 1, k - 1);
      BackoffDoubles(k - 1);
    } else {
      BackoffBounds(j, k - 1);
      BackoffDoubles(k - 1);
    }
  }

  // --------------------------------------------------------------------- one connection

  /** Which positions of reader and delivery task go together. */
  predicate Shape(cfg: Config, c: Conn) {
    && |c.channel| <= cfg.perConnection
    && (c.reader.HeaderParse? || c.reader.HeaderRead? ==> c.courier.NotStarted?)
    && (SenderOpen(c) ==> c.courier.Receiving? || c.courier.Holding?)
    && (c.reader.Joining? || c.reader.Unwinding? || c.reader.Crashed? ==> !c.courier.NotStarted?)
    && (c.reader.Closing? || c.reader.CountingClosed? || c.reader.Ending? || c.reader.Gone? ==>
          c.courier.NotStarted? || c.courier.Finished?)
    && (c.courier.NotStarted? || c.courier.Finished? ==> c.channel == [])
    && (c.courier.NotStarted? ==> c.settled == [] && c.offers == [] && c.decoded == [])
  }

  function MsgsOf(holds: seq<Hold>): seq<Message> {
    seq(|holds|, i requires 0 <= i < |holds| => holds[i].msg)
  }

  function CourierMsgs(k: Courier): seq<Message> {
    if k.Holding? then [k.hold.msg] else []
  }

  function ReaderMsgs(r: Reader): seq<Message> {
    match r
    case HaveId(msg) => [msg]
    case Sending(msg) => [msg]
    case _ => []
  }

  /** Every message of a connection that has an id: settled, being delivered, in the
      channel, in the reader's hands. */
  function Msgs(c: Conn): seq<Message> {
    MsgsOf(c.settled) + CourierMsgs(c.courier) + c.channel + ReaderMsgs(c.reader)
  }

  function Bodies(msgs: seq<Message>): seq<bytes> {
    seq(|msgs|, i requires 0 <= i < |msgs| => msgs[i].body)
  }

  /** A message decoded but without an id yet. */
  function Loose(r: Reader): seq<bytes> {
    match r
    case WantCredit(body) => [body]
    case HaveCredit(body) => [body]
    case _ => []
  }

  predicate Increasing(msgs: seq<Message>, issued: int) {
    && (forall i | 0 <= i < |msgs| :: 1 <= msgs[i].id <= issued)
    && (forall i, j | 0 <= i < j < |msgs| :: msgs[i].id < msgs[j].id)
  }

  /** No message is lost, repeated, reordered or mislabelled between the framer and
      the end of its delivery. */
  predicate Order(issued: int, c: Conn) {
    && c.decoded == Bodies(Msgs(c)) + Loose(c.reader)
    && (forall m | m in Msgs(c) :: m.peer == c.peer)
    && Increasing(Msgs(c), issued)
  }

  /** The worker-queue entries one message accounts for: attempts 1 to `offered`. */
  function Numbered(h: Hold): seq<Offer> {
    seq(h.offered, i requires 0 <= i => Offer(h.msg, i + 1))
  }

  function OffersOf(holds: seq<Hold>): seq<Offer> {
    if holds == [] then [] else OffersOf(holds[..|holds| - 1]) + Numbered(holds[|holds| - 1])
  }

  function CourierOffers(k: Courier): seq<Offer> {
    if k.Holding? then Numbered(k.hold) else []
  }

  /** Head-of-line order: the connection's worker-queue entries are those of its
      settled messages, one message after the other, then those of the one in hand. */
  predicate HeadOfLine(c: Conn) {
    c.offers == OffersOf(c.settled) + CourierOffers(c.courier)
  }

  predicate HoldsOk(cancelled: bool, c: Conn) {
    && (forall h | h in c.settled :: h.stage.Done? && HoldOk(true, cancelled, h))
    && (c.courier.Holding? ==> !c.courier.hold.stage.Done? && HoldOk(true, cancelled, c.courier.hold))
  }

  function LeavesAs(stage: Stage): Option<Outcome> {
    match stage
    case Counting(o) => Some(o)
    case Releasing(o) => Some(o)
    case Freeing(o) => Some(o)
    case Done(o) => Some(o)
    case _ => None
  }

  predicate LostWorkers(h: Hold) {
    LeavesAs(h.stage) == Some(Abandoned(WorkersLost))
  }

  predicate NeverTried(h: Hold) {
    LeavesAs(h.stage) == Some(Abandoned(Unattempted))
  }

  /** Index of the first message that found no workers. */
  function FirstLoss(holds: seq<Hold>): (k: nat)
    ensures k <= |holds|
  {
    if holds == [] then 0
    else
      var n := |holds| - 1;
      var k := FirstLoss(holds[..n]);
      if k < n || LostWorkers(holds[n]) then k else n + 1
  }

  /** From the first lost worker on, messages are abandoned without an attempt, and
      only then. */
  predicate GivesUp(c: Conn) {
    && (c.workersGone <==> FirstLoss(c.settled) < |c.settled|)
    && (forall i | 0 <= i < |c.settled| :: NeverTried(c.settled[i]) <==> i > FirstLoss(c.settled))
    && (c.courier.Holding? ==> (NeverTried(c.courier.hold) <==> c.workersGone))
  }

  predicate ConnOk(cfg: Config, cancelled: bool, issued: int, c: Conn) {
    Shape(cfg, c) && Order(issued, c) && HeadOfLine(c) && HoldsOk(cancelled, c) && GivesUp(c)
  }

  lemma NewConnOk(cfg: Config, cancelled: bool, issued: int, peer: Peer)
    ensures ConnOk(cfg, cancelled, issued, NewConn(cfg, peer))
  {
  }

  /** A step keeps every message of the connection where it is in line, and adds at
      most one, under the next id. */
  ghost predicate MsgsGrow(issued: int, c: Conn, next: Conn, delta: int) {
    if delta == 0 then Msgs(next) == Msgs(c)
    else delta == 1 && exists m: Message :: Msgs(next) == Msgs(c) + [m] && m.id == issued + 1
  }

  // ---------------------------------------------------------------- the reader's steps

  /** The parts of `ConnOk` that only speak of the delivery task. */
  predicate CourierOk(cancelled: bool, c: Conn) {
    HeadOfLine(c) && HoldsOk(cancelled, c) && GivesUp(c)
  }

  /** A reader step leaves the delivery task and what it has settled alone. */
  predicate SameCourier(c: Conn, next: Conn) {
    && next.settled == c.settled && next.offers == c.offers && next.workersGone == c.workersGone
    && (next.courier == c.courier || (c.courier.NotStarted? && next.courier.Receiving?))
  }

  lemma CourierOkFrame(cancelled: bool, c: Conn, next: Conn)
    requires CourierOk(cancelled, c) && SameCourier(c, next)
    ensures CourierOk(cancelled, next)
  {
    hide HoldOk, OffersOf, FirstLoss, NeverTried;
  }

  /** What an input step changes: bytes, and at most one freshly decoded message. */
  predicate InputShape(cfg: Config, c: Conn, next: Conn) {
    && Shape(cfg, next) && SameCourier(c, next)
    && next.channel == c.channel
    && ReaderMsgs(next.reader) == ReaderMsgs(c.reader) == []
    && next.decoded == c.decoded + Loose(next.reader) && Loose(c.reader) == []
    && (next.peer == c.peer || c.courier.NotStarted?)
  }

  lemma ShapeHeader(cfg: Config, c: Conn)
    requires Shape(cfg, c) && c.reader.HeaderParse?
    ensures InputShape(cfg, c, HeaderNext(c))
  {
    hide Proxy.Parse;
  }

  lemma ShapeDecode(cfg: Config, c: Conn)
    requires Shape(cfg, c) && c.reader.Decoding?
    ensures InputShape(cfg, c, DecodeNext(cfg, c))
  {
    hide DecodeTurn;
  }

  lemma ShapeInput(cfg: Config, cancelled: bool, c: Conn, l: ReaderStep)
    requires Shape(cfg, c) && InputNext(cfg, cancelled, c, l).Some?
    ensures InputShape(cfg, c, InputNext(cfg, cancelled, c, l).value)
  {
    hide DecodeNext, HeaderNext;
    match l
    case ParseHeader => ShapeHeader(cfg, c);
    case Decode => ShapeDecode(cfg, c);
    case _ =>
  }

  lemma InputKeeps(cfg: Config, cancelled: bool, issued: int, c: Conn, l: ReaderStep)
    requires ConnOk(cfg, cancelled, issued, c)
    requires InputNext(cfg, cancelled, c, l).Some?
    ensures var next := InputNext(cfg, cancelled, c, l).value;
            ConnOk(cfg, cancelled, issued, next) && MsgsGrow(issued, c, next, 0)
  {
    hide InputNext, Shape, HeadOfLine, HoldsOk, GivesUp, Bodies, MsgsOf;
    var next := InputNext(cfg, cancelled, c, l).value;
    ShapeInput(cfg, cancelled, c, l);
    CourierOkFrame(cancelled, c, next);
    assert Msgs(next) == Msgs(c);
    assert c.decoded == Bodies(Msgs(c)) + [];
    if c.courier.NotStarted? {
      NoMessagesYet(cfg, c);
    }
  }

  lemma NoMessagesYet(cfg: Config, c: Conn)
    requires Shape(cfg, c) && c.courier.NotStarted?
    ensures Msgs(c) == []
  {
  }

  /** The failed-send branch is dead code: while the reader can send, the delivery
      task is still receiving. */
  lemma ReceiverOutlivesSender(cfg: Config, shared: Tally, c: Conn)
    requires Shape(cfg, c)
    ensures HandoverNext(cfg, shared, c, SendFailed).None?
    ensures SenderOpen(c) ==> !c.courier.Finished? && !c.courier.NotStarted?
  {
  }

  lemma ShapeHandover(cfg: Config, shared: Tally, c: Conn, l: ReaderStep)
    requires Shape(cfg, c) && HandoverNext(cfg, shared, c, l).Some?
    ensures var next := HandoverNext(cfg, shared, c, l).value.next;
            && Shape(cfg, next) && SameCourier(c, next)
            && next.decoded == c.decoded && next.peer == c.peer
            && HandoverNext(cfg, shared, c, l).value.delta.issued == (if l.AssignId? then 1 else 0)
            && Loose(next.reader) == (if l.Acquire? then Loose(c.reader) else [])
            && if l.AssignId? then
                 && Loose(c.reader) == [c.reader.body]
                 && Msgs(next) == Msgs(c) + [Message(shared.issued + 1, c.reader.body, c.peer)]
               else
                 Msgs(next) == Msgs(c) && (!l.Acquire? ==> Loose(c.reader) == [])
  {
    hide MsgsOf;
    var next := HandoverNext(cfg, shared, c, l).value.next;
    if l.Send? {
      var before := MsgsOf(c.settled) + CourierMsgs(c.courier);
      assert before + (c.channel + [c.reader.msg]) + [] == before + c.channel + [c.reader.msg];
    } else if l.AssignId? {
      assert ReaderMsgs(c.reader) == [];
    }
  }

  lemma BodiesAppend(msgs: seq<Message>, m: Message)
    ensures Bodies(msgs + [m]) == Bodies(msgs) + [m.body]
  {
  }

  lemma HandoverKeeps(cfg: Config, cancelled: bool, shared: Tally, c: Conn, l: ReaderStep)
    requires ConnOk(cfg, cancelled, shared.issued, c) && shared.issued >= 0
    requires HandoverNext(cfg, shared, c, l).Some?
    ensures !l.SendFailed?
    ensures var m := HandoverNext(cfg, shared, c, l).value;
            ConnOk(cfg, cancelled, shared.issued + m.delta.issued, m.next)
            && MsgsGrow(shared.issued, c, m.next, m.delta.issued)
  {
    hide HandoverNext, Shape, HeadOfLine, HoldsOk, GivesUp, Bodies, Msgs;
    ReceiverOutlivesSender(cfg, shared, c);
    var m := HandoverNext(cfg, shared, c, l).value;
    ShapeHandover(cfg, shared, c, l);
    CourierOkFrame(cancelled, c, m.next);
    if l.AssignId? {
      var msg := Message(shared.issued + 1, c.reader.body, c.peer);
      BodiesAppend(Msgs(c), msg);
      assert m.next.decoded == Bodies(Msgs(m.next)) + [];
    }
  }

  lemma ShapeFarewell(cfg: Config, c: Conn, l: ReaderStep)
    requires Shape(cfg, c) && FarewellNext(c, l).Some?
    ensures var m := FarewellNext(c, l).value;
            && Shape(cfg, m.next) && SameCourier(c, m.next) && m.delta.issued == 0
            && m.next.channel == c.channel && m.next.decoded == c.decoded && m.next.peer == c.peer
            && ReaderMsgs(m.next.reader) == ReaderMsgs(c.reader) == []
            && Loose(m.next.reader) == Loose(c.reader) == []
  {
  }

  lemma FarewellKeeps(cfg: Config, cancelled: bool, issued: int, c: Conn, l: ReaderStep)
    requires ConnOk(cfg, cancelled, issued, c)
    requires FarewellNext(c, l).Some?
    ensures var m := FarewellNext(c, l).value;
            m.delta.issued == 0 && ConnOk(cfg, cancelled, issued, m.next) && MsgsGrow(issued, c, m.next, 0)
  {
    hide FarewellNext, Shape, HeadOfLine, HoldsOk, GivesUp, Bodies, MsgsOf;
    var next := FarewellNext(c, l).value.next;
    ShapeFarewell(cfg, c, l);
    CourierOkFrame(cancelled, c, next);
    assert Msgs(next) == Msgs(c);
  }

  // -------------------------------------------------------------- the delivery task's steps

  lemma RecvKeeps(cfg: Config, env: Env, c: Conn)
    requires ConnOk(cfg, env.cancelled, env.shared.issued, c)
    requires CourierNext(env, c, Recv).Some?
    ensures var next := CourierNext(env, c, Recv).value.next;
            ConnOk(cfg, env.cancelled, env.shared.issued, next) && MsgsGrow(env.shared.issued, c, next, 0)
  {
    hide Bodies, MsgsOf, HeadOfLine, HoldsOk, GivesUp;
    var next := CourierNext(env, c, Recv).value.next;
    RecvCourierOk(env, c);
    assert c.channel == [c.channel[0]] + c.channel[1..];
    assert Msgs(next) == Msgs(c);
  }

  lemma RecvCourierOk(env: Env, c: Conn)
    requires CourierOk(env.cancelled, c) && CourierNext(env, c, Recv).Some?
    ensures CourierOk(env.cancelled, CourierNext(env, c, Recv).value.next)
  {
    hide OffersOf, FirstLoss;
    var next := CourierNext(env, c, Recv).value.next;
    assert CourierOffers(next.courier) == [];
    assert HoldOk(true, env.cancelled, next.courier.hold);
  }

  lemma RecvClosedKeeps(cfg: Config, env: Env, c: Conn)
    requires ConnOk(cfg, env.cancelled, env.shared.issued, c)
    requires CourierNext(env, c, RecvClosed).Some?
    ensures var next := CourierNext(env, c, RecvClosed).value.next;
            ConnOk(cfg, env.cancelled, env.shared.issued, next) && MsgsGrow(env.shared.issued, c, next, 0)
  {
    hide Bodies, MsgsOf, OffersOf, FirstLoss, HoldOk;
    var next := CourierNext(env, c, RecvClosed).value.next;
    assert Msgs(next) == Msgs(c);
  }

  /** What a step of a held message means for its place in the connection. */
  lemma HoldStepEffect(cancelled: bool, h: Hold, l: HoldStep)
    requires HoldOk(true, cancelled, h) && !h.stage.Done?
    requires HoldNext(LostOutcome(true), cancelled, h, l).Some?
    ensures var held := HoldNext(LostOutcome(true), cancelled, h, l).value;
            && held.hold.msg == h.msg && held.delta.issued == 0
            && held.hold.offered == h.offered + (if l.Sent? then 1 else 0)
            && (l.Sent? ==> h.attempt == h.offered + 1)
            && (NeverTried(held.hold) <==> NeverTried(h))
            && (held.hold.stage.Done? ==> !l.Sent?)
            && (held.hold.stage.Done? ==>
                  (LostWorkers(held.hold) <==> held.hold.stage.outcome == Abandoned(WorkersLost)))
  {
  }

  lemma NumberedAppend(h: Hold, next: Hold)
    requires next.msg == h.msg && next.offered == h.offered + 1
    ensures Numbered(next) == Numbered(h) + [Offer(h.msg, h.offered + 1)]
  {
  }

  lemma MsgsOfAppend(holds: seq<Hold>, h: Hold)
    ensures MsgsOf(holds + [h]) == MsgsOf(holds) + [h.msg]
  {
  }

  lemma FirstLossAppend(holds: seq<Hold>, h: Hold)
    ensures FirstLoss(holds + [h])
            == if FirstLoss(holds) < |holds| || LostWorkers(h) then FirstLoss(holds) else |holds| + 1
  {
    assert (holds + [h])[..|holds|] == holds;
  }

  lemma AttendOrder(cfg: Config, issued: int, c: Conn, l: HoldStep, h: Hold, next: Hold)
    requires Shape(cfg, c) && Order(issued, c) && c.courier == Holding(h)
    requires next.msg == h.msg
    ensures Shape(cfg, Attended(c, h, l, next)) && Order(issued, Attended(c, h, l, next))
    ensures Msgs(Attended(c, h, l, next)) == Msgs(c)
  {
    hide Bodies, MsgsOf;
    MsgsOfAppend(c.settled, next);
    assert MsgsOf(c.settled) + [h.msg] + [] == MsgsOf(c.settled) + [h.msg];
    assert Msgs(Attended(c, h, l, next)) == Msgs(c);
  }

  lemma AttendOffers(c: Conn, l: HoldStep, h: Hold, next: Hold)
    requires HeadOfLine(c) && c.courier == Holding(h)
    requires next.msg == h.msg && next.offered == h.offered + (if l.Sent? then 1 else 0)
    requires l.Sent? ==> h.attempt == h.offered + 1 && !next.stage.Done?
    ensures HeadOfLine(Attended(c, h, l, next))
  {
    if next.stage.Done? {
      assert (c.settled + [next])[..|c.settled|] == c.settled;
      assert Numbered(next) == Numbered(h);
    } else if l.Sent? {
      hide OffersOf, Numbered;
      NumberedAppend(h, next);
    } else {
      assert Numbered(next) == Numbered(h);
    }
  }

  lemma AttendGivesUp(c: Conn, l: HoldStep, h: Hold, next: Hold)
    requires GivesUp(c) && c.courier == Holding(h)
    requires NeverTried(next) <==> NeverTried(h)
    requires next.stage.Done? ==> (LostWorkers(next) <==> next.stage.outcome == Abandoned(WorkersLost))
    ensures GivesUp(Attended(c, h, l, next))
  {
    hide FirstLoss;
    FirstLossAppend(c.settled, next);
  }

  lemma AttendKeeps(cfg: Config, env: Env, c: Conn, l: HoldStep)
    requires ConnOk(cfg, env.cancelled, env.shared.issued, c)
    requires CourierNext(env, c, Attend(l)).Some?
    ensures var m := CourierNext(env, c, Attend(l)).value;
            m.delta.issued == 0 && ConnOk(cfg, env.cancelled, env.shared.issued, m.next)
            && MsgsGrow(env.shared.issued, c, m.next, 0)
  {
    hide HoldNext, HoldOk, Shape, Order, HeadOfLine, GivesUp, NeverTried, LostWorkers, Msgs;
    var h := c.courier.hold;
    var held := HoldNext(LostOutcome(true), env.cancelled, h, l).value;
    HoldKeeps(true, env.cancelled, h, l);
    HoldStepEffect(env.cancelled, h, l);
    AttendOrder(cfg, env.shared.issued, c, l, h, held.hold);
    AttendOffers(c, l, h, held.hold);
    AttendGivesUp(c, l, h, held.hold);
  }

  lemma CourierKeeps(cfg: Config, env: Env, c: Conn, l: CourierStep)
    requires ConnOk(cfg, env.cancelled, env.shared.issued, c)
    requires CourierNext(env, c, l).Some?
    ensures var m := CourierNext(env, c, l).value;
            m.delta.issued == 0 && ConnOk(cfg, env.cancelled, env.shared.issued, m.next)
            && MsgsGrow(env.shared.issued, c, m.next, 0)
  {
    hide ConnOk, MsgsGrow;
    match l
    case Recv => RecvKeeps(cfg, env, c);
    case RecvClosed => RecvClosedKeeps(cfg, env, c);
    case Attend(step) => AttendKeeps(cfg, env, c, step);
  }

  lemma ReaderKeeps(cfg: Config, env: Env, c: Conn, l: ReaderStep)
    requires ConnOk(cfg, env.cancelled, env.shared.issued, c) && env.shared.issued >= 0
    requires ReaderNext(cfg, env, c, l).Some?
    ensures !l.SendFailed?
    ensures var m := ReaderNext(cfg, env, c, l).value;
            ConnOk(cfg, env.cancelled, env.shared.issued + m.delta.issued, m.next)
            && MsgsGrow(env.shared.issued, c, m.next, m.delta.issued)
  {
    hide MsgsGrow, ConnOk, HandoverNext, FarewellNext, InputNext;
    match l
    case Acquire | AssignId | GaugeUp | Send | SendFailed => HandoverKeeps(cfg, env.cancelled, env.shared, c, l);
    case DropSender | Join | CloseConn | CountClosed | Exit | Unwind =>
      FarewellKeeps(cfg, env.cancelled, env.shared.issued, c, l);
    case _ => InputKeeps(cfg, env.cancelled, env.shared.issued, c, l);
  }

  // ------------------------------------------------------------------------- every task

  /** Every message of a task that has an id. */
  function TaskMsgs(t: Task): seq<Message> {
    match t
    case Listener(_) => []
    case DatagramLoop(DatagramNamed(msg), _) => [msg]
    case DatagramLoop(DatagramGauged(msg), _) => [msg]
    case DatagramLoop(_, _) => []
    case Serving(c) => Msgs(c)
    case DatagramTask(h, _) => [h.msg]
  }

  function Ids(t: Task): set<int> {
    set m | m in TaskMsgs(t) :: m.id
  }

  predicate TaskOk(cfg: Config, cancelled: bool, issued: int, t: Task) {
    && Increasing(TaskMsgs(t), issued)
    && match t
       case Listener(l) => (l.Added? ==> l.before >= 0) && (l.Stopped? ==> cancelled)
       case DatagramLoop(loop, _) =>
         && (loop.DatagramCredited? ==> |loop.body| < cfg.udpBuffer)
         && (loop.DatagramNamed? || loop.DatagramGauged? ==> |loop.msg.body| < cfg.udpBuffer)
         && (loop.DatagramStopped? ==> cancelled)
       case Serving(c) => ConnOk(cfg, cancelled, issued, c)
       case DatagramTask(h, over) =>
         HoldOk(false, cancelled, h) && (over ==> h.stage.Done?) && |h.msg.body| < cfg.udpBuffer
  }

  /** The checks on a task survive shutdown and ids given to others. */
  lemma TaskOkMonotone(cfg: Config, cancelled: bool, later: bool, issued: int, more: int, t: Task)
    requires TaskOk(cfg, cancelled, issued, t) && (cancelled ==> later) && issued <= more
    ensures TaskOk(cfg, later, more, t)
  {
    hide TaskMsgs, Shape, HeadOfLine, GivesUp, Msgs;
  }

  /** A task's step in terms of ids: a new one is the next number, and a spawned
      datagram takes its id along. */
  predicate IdsMove(issued: int, t: Task, a: Acted) {
    && |a.spawned| <= 1
    && 0 <= a.delta.issued <= 1
    && Ids(a.next) + SpawnedIds(a.spawned) == Ids(t) + (if a.delta.issued == 1 then {issued + 1} else {})
    && Ids(a.next) !! SpawnedIds(a.spawned)
  }

  function SpawnedIds(spawned: seq<Task>): set<int> {
    if spawned == [] then {} else Ids(spawned[0])
  }

  /** A step of any task keeps what is checked of it and of what it starts. */
  predicate Keeps(cfg: Config, env: Env, t: Task, a: Acted) {
    && IdsMove(env.shared.issued, t, a)
    && TaskOk(cfg, env.cancelled, env.shared.issued + a.delta.issued, a.next)
    && forall x | x in a.spawned :: TaskOk(cfg, env.cancelled, env.shared.issued + a.delta.issued, x)
  }

  lemma ListenerKeeps(cfg: Config, env: Env, t: StreamListener, l: ListenerStep)
    requires TaskOk(cfg, env.cancelled, env.shared.issued, Listener(t))
    requires env.shared.connections >= 0
    requires ListenerNext(cfg, env, t, l).Some?
    ensures Keeps(cfg, env, Listener(t), ListenerNext(cfg, env, t, l).value)
  {
    hide ConnOk, Msgs, NewConn;
    var a := ListenerNext(cfg, env, t, l).value;
    if l.SpawnStream? {
      NewTaskOk(cfg, env.cancelled, env.shared.issued, t.peer);
    }
  }

  lemma NewTaskOk(cfg: Config, cancelled: bool, issued: int, peer: Peer)
    ensures TaskOk(cfg, cancelled, issued, Serving(NewConn(cfg, peer)))
    ensures Ids(Serving(NewConn(cfg, peer))) == {}
  {
    NewConnOk(cfg, cancelled, issued, peer);
    assert Msgs(NewConn(cfg, peer)) == [];
  }

  lemma DatagramLoopKeeps(cfg: Config, env: Env, t: DatagramListener, starved: nat, l: DatagramListenerStep)
    requires TaskOk(cfg, env.cancelled, env.shared.issued, DatagramLoop(t, starved))
    requires env.shared.issued >= 0
    requires DatagramLoopNext(cfg, env, t, starved, l).Some?
    ensures Keeps(cfg, env, DatagramLoop(t, starved), DatagramLoopNext(cfg, env, t, starved, l).value)
  {
  }

  lemma ServingKeeps(cfg: Config, env: Env, c: Conn, m: Moved<Conn>)
    requires ConnOk(cfg, env.cancelled, env.shared.issued + m.delta.issued, m.next)
    requires MsgsGrow(env.shared.issued, c, m.next, m.delta.issued)
    ensures Keeps(cfg, env, Serving(c), Acted(Serving(m.next), [], m.delta))
  {
    hide Msgs, HeadOfLine, GivesUp, HoldsOk, Shape, Increasing;
    if m.delta.issued == 1 {
      var msg :| Msgs(m.next) == Msgs(c) + [msg] && msg.id == env.shared.issued + 1;
      assert Ids(Serving(m.next)) == Ids(Serving(c)) + {msg.id};
    }
  }

  lemma DatagramKeeps(cfg: Config, env: Env, h: Hold, over: bool, l: HoldStep)
    requires TaskOk(cfg, env.cancelled, env.shared.issued, DatagramTask(h, over))
    requires HoldNext(Dropped, env.cancelled, h, l).Some?
    ensures var held := HoldNext(Dropped, env.cancelled, h, l).value;
            Keeps(cfg, env, DatagramTask(h, over), Acted(DatagramTask(held.hold, over), [], held.delta))
  {
    HoldKeeps(false, env.cancelled, h, l);
    HoldNextBasics(Dropped, env.cancelled, h, l);
    hide HoldNext, HoldOk;
    var held := HoldNext(Dropped, env.cancelled, h, l).value;
    assert TaskMsgs(DatagramTask(held.hold, over)) == TaskMsgs(DatagramTask(h, over));
  }

  lemma HoldNextBasics(lost: Outcome, cancelled: bool, h: Hold, l: HoldStep)
    requires HoldNext(lost, cancelled, h, l).Some?
    ensures var held := HoldNext(lost, cancelled, h, l).value;
            held.hold.msg == h.msg && held.delta.issued == 0 && !h.stage.Done?
  {
  }

  lemma TaskKeeps(cfg: Config, env: Env, t: Task, l: TaskStep)
    requires TaskOk(cfg, env.cancelled, env.shared.issued, t)
    requires env.shared.issued >= 0 && env.shared.connections >= 0
    requires TaskNext(cfg, env, t, l).Some?
    ensures Keeps(cfg, env, t, TaskNext(cfg, env, t, l).value)
    ensures l != ReaderDo(SendFailed)
  {
    hide Keeps, ConnOk, MsgsGrow, HoldOk, Increasing;
    hide ListenerNext, DatagramLoopNext, ReaderNext, CourierNext, HoldNext;
    match l
    case ListenerDo(step) => ListenerKeeps(cfg, env, t.listener, step);
    case DatagramLoopDo(step) => DatagramLoopKeeps(cfg, env, t.loop, t.starved, step);
    case ReaderDo(step) =>
      ReaderKeeps(cfg, env, t.conn, step);
      ServingKeeps(cfg, env, t.conn, ReaderNext(cfg, env, t.conn, step).value);
    case CourierDo(step) =>
      CourierKeeps(cfg, env, t.conn, step);
      ServingKeeps(cfg, env, t.conn, CourierNext(env, t.conn, step).value);
    case DatagramDo(step) => DatagramKeeps(cfg, env, t.hold, t.over, step);
    case DatagramExit => DatagramExitKeeps(cfg, env, t.hold);
  }

  lemma DatagramExitKeeps(cfg: Config, env: Env, h: Hold)
    requires TaskOk(cfg, env.cancelled, env.shared.issued, DatagramTask(h, false)) && h.stage.Done?
    ensures Keeps(cfg, env, DatagramTask(h, false), Acted(DatagramTask(h, true), [], Tally(tracked := -1)))
  {
    hide HoldOk, Increasing;
    assert TaskMsgs(DatagramTask(h, true)) == TaskMsgs(DatagramTask(h, false));
  }
}
