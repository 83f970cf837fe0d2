/** What goes in is what comes out: the labels of a run are its inputs (connections
    accepted, bytes read, datagrams received, answers given), and every reachable state
    holds exactly those values, each where it belongs. */
module Journal {
  import opened Bytes
  import opened Delivery
  import opened Protocol
  import opened Safety
  import opened History
  import opened StreamDelivery
  import Guarantees

  // ------------------------------------------------------------- what one step brings in

  /** The peer of a connection accepted by listener `l` while fewer than the limit are
      counted. */
  function AdmitNow(cfg: Config, s: System, step: Step, l: nat): seq<Peer> {
    match step
    case At(i, ListenerDo(Accept(peer))) =>
      if i == l && s.shared.connections < cfg.maxConnections then [peer] else []
    case _ => []
  }

  /** The place of the task that listener `l` or datagram loop `l` spawns. */
  function SpawnNow(s: System, step: Step, l: nat): seq<nat> {
    match step
    case At(i, ListenerDo(SpawnStream)) => if i == l then [|s.tasks|] else []
    case At(i, DatagramLoopDo(SpawnDatagram)) => if i == l then [|s.tasks|] else []
    case _ => []
  }

  datatype Datagram = Datagram(body: bytes, peer: Peer)

  /** A datagram received by loop `l` that is not truncated and finds a credit. */
  function TakeNow(cfg: Config, s: System, step: Step, l: nat): seq<Datagram> {
    match step
    case At(i, DatagramLoopDo(Receive(body, peer))) =>
      if i == l && |body| < cfg.udpBuffer && s.shared.credits > 0 then [Datagram(body, peer)] else []
    case _ => []
  }

  /** One that is not truncated and finds none. */
  function TurnAwayNow(cfg: Config, s: System, step: Step, l: nat): nat {
    match step
    case At(i, DatagramLoopDo(Receive(body, _))) =>
      if i == l && |body| < cfg.udpBuffer && s.shared.credits <= 0 then 1 else 0
    case _ => 0
  }

  function ReadNow(step: Step, i: nat): bytes {
    match step
    case At(j, ReaderDo(Data(chunk))) => if i == j then chunk else []
    case At(j, ReaderDo(HeaderData(chunk))) => if i == j then chunk else []
    case _ => []
  }

  predicate EndsNow(step: Step, i: nat) {
    step == At(i, ReaderDo(Eof))
  }

  /** The connection fails or idles too long, or its reader sees a shutdown that is under
      way. */
  predicate LeavesNow(s: System, step: Step, i: nat) {
    match step
    case At(j, ReaderDo(Quit)) => i == j
    case At(j, ReaderDo(SeeCancel)) => i == j && s.cancelled
    case _ => false
  }

  function AnswerNow(step: Step, i: nat): seq<Verdict> {
    match step
    case At(j, CourierDo(Attend(Answer(v)))) => if i == j then [v] else []
    case At(j, DatagramDo(Answer(v))) => if i == j then [v] else []
    case _ => []
  }

  /** The workers are gone, or the one with the message goes without an answer. */
  predicate LosesNow(step: Step, i: nat) {
    match step
    case At(j, CourierDo(Attend(l))) => i == j && (l.Disconnected? || l.AnswerLost?)
    case At(j, DatagramDo(l)) => i == j && (l.Disconnected? || l.AnswerLost?)
    case _ => false
  }

  // ---------------------------------------------------------------- and what a run brought in

  /** Everything that came in at one task. */
  datatype Record = Record(
    admitted: seq<Peer>,
    spawned: seq<nat>,
    taken: seq<Datagram>,
    turnedAway: nat,
    read: bytes,
    ended: bool,
    left: bool,
    answers: seq<Verdict>,
    lost: bool)

  const BLANK := Record([], [], [], 0, [], false, false, [], false)

  function Note(cfg: Config, s: System, step: Step, i: nat, r: Record): Record {
    Record(r.admitted + AdmitNow(cfg, s, step, i),
           r.spawned + SpawnNow(s, step, i),
           r.taken + TakeNow(cfg, s, step, i),
           r.turnedAway + TurnAwayNow(cfg, s, step, i),
           r.read + ReadNow(step, i),
           r.ended || EndsNow(step, i),
           r.left || LeavesNow(s, step, i),
           r.answers + AnswerNow(step, i),
           r.lost || LosesNow(step, i))
  }

  function Recorded(cfg: Config, s: System, run: seq<Step>, i: nat): Record
    decreases |run|
  {
    if run == [] then BLANK
    else
      var before, last := run[..|run| - 1], run[|run| - 1];
      var r := Recorded(cfg, s, before, i);
      match Execute(cfg, s, before)
      case None => r
      case Some(mid) => Note(cfg, mid, last, i, r)
  }

  // -------------------------------------------------------------------- what a task makes of it

  /** The verdicts a message has had. */
  function Verdicts(h: Hold): seq<Verdict> {
    h.past + match h.stage
             case Answered(v) => [v]
             case Releasing(Delivered) => [Accepted]
             case Freeing(Delivered) => [Accepted]
             case Done(Delivered) => [Accepted]
             case _ => []
  }

  function AllVerdicts(holds: seq<Hold>): seq<Verdict> {
    if holds == [] then [] else AllVerdicts(holds[..|holds| - 1]) + Verdicts(holds[|holds| - 1])
  }

  /** The peer of a connection admitted and not yet spawned. */
  function AtDoor(cfg: Config, t: StreamListener): seq<Peer> {
    match t
    case Added(before, peer) => if before < cfg.maxConnections then [peer] else []
    case Admitted(peer) => [peer]
    case Opened(peer) => [peer]
    case _ => []
  }

  function InHand(t: DatagramListener): seq<Datagram> {
    match t
    case DatagramCredited(body, peer) => [Datagram(body, peer)]
    case DatagramNamed(msg) => [Datagram(msg.body, msg.peer)]
    case DatagramGauged(msg) => [Datagram(msg.body, msg.peer)]
    case _ => []
  }

  /** A message of this connection was given up for want of workers. */
  predicate Deserted(c: Conn) {
    c.workersGone || (c.courier.Holding? && LostWorkers(c.courier.hold))
  }

  /** The reader is out of its loop, and neither the end of the stream nor the framer
      made it leave. */
  predicate LeftEarly(c: Conn) {
    Departed(c.reader) && !Panicked(c.reader) && Started(c) && !c.eof && c.fate.Following?
  }

  predicate GivenUp(h: Hold) {
    LeavesAs(h.stage) == Some(Dropped)
  }

  /** A connection with this peer of its own. */
  predicate ConnectionFrom(tasks: seq<Task>, j: nat, peer: Peer) {
    j < |tasks| && tasks[j].Serving? && tasks[j].conn.ownPeer == peer
  }

  /** A message made of this datagram. */
  predicate MadeOf(tasks: seq<Task>, j: nat, d: Datagram) {
    j < |tasks| && tasks[j].DatagramTask? && tasks[j].hold.msg.body == d.body && tasks[j].hold.msg.peer == d.peer
  }

  /** The messages at these places have increasing ids, below that of one in hand. */
  predicate InIdOrder(tasks: seq<Task>, places: seq<nat>, t: DatagramListener) {
    && (forall k | 0 <= k < |places| :: places[k] < |tasks| && tasks[places[k]].DatagramTask?)
    && (forall j, k | 0 <= j < k < |places| :: tasks[places[j]].hold.msg.id < tasks[places[k]].hold.msg.id)
    && (t.DatagramNamed? || t.DatagramGauged? ==>
          forall k | 0 <= k < |places| :: tasks[places[k]].hold.msg.id < t.msg.id)
  }

  /** A task holds what was recorded of it, and nothing else. */
  predicate Tells(cfg: Config, tasks: seq<Task>, i: nat, r: Record)
    requires i < |tasks|
  {
    match tasks[i]
    case Listener(t) =>
      && |r.admitted| == |r.spawned| + |AtDoor(cfg, t)|
      && r.admitted[|r.spawned|..] == AtDoor(cfg, t)
      && forall k | 0 <= k < |r.spawned| :: ConnectionFrom(tasks, r.spawned[k], r.admitted[k])
    case DatagramLoop(t, starved) =>
      && starved == r.turnedAway
      && |r.taken| == |r.spawned| + |InHand(t)|
      && r.taken[|r.spawned|..] == InHand(t)
      && (forall k | 0 <= k < |r.spawned| :: MadeOf(tasks, r.spawned[k], r.taken[k]))
      && InIdOrder(tasks, r.spawned, t)
    case Serving(c) =>
      && c.received == r.read && c.eof == r.ended
      && AllVerdicts(Guarantees.Taken(c)) == r.answers
      && (Deserted(c) ==> r.lost)
      && (LeftEarly(c) ==> r.left)
    case DatagramTask(h, _) => Verdicts(h) == r.answers && (GivenUp(h) ==> r.lost || r.answers != [])
  }

  // ------------------------------------------------------------------------ one task's step

  lemma HoldAnswers(stream: bool, cancelled: bool, h: Hold, l: HoldStep)
    requires HoldOk(stream, cancelled, h) && HoldNext(LostOutcome(stream), cancelled, h, l).Some?
    ensures Verdicts(HoldNext(LostOutcome(stream), cancelled, h, l).value.hold)
            == Verdicts(h) + if l.Answer? then [l.verdict] else []
  {
    hide Backoff, TotalBackoff;
  }

  lemma HoldLoses(stream: bool, cancelled: bool, h: Hold, l: HoldStep)
    requires HoldOk(stream, cancelled, h) && HoldNext(LostOutcome(stream), cancelled, h, l).Some?
    ensures var next := HoldNext(LostOutcome(stream), cancelled, h, l).value.hold;
            && (LostWorkers(next) ==> LostWorkers(h) || l.Disconnected? || l.AnswerLost?)
            && (GivenUp(next) ==> GivenUp(h) || l.Disconnected? || l.AnswerLost? || Verdicts(h) != [])
  {
    hide Backoff, TotalBackoff;
  }

  /** A message was accepted if and only if one of its answers was, and that is the last. */
  lemma AcceptedOnce(stream: bool, cancelled: bool, h: Hold)
    requires HoldOk(stream, cancelled, h)
    ensures Accepted in Verdicts(h) <==> h.stage == Answered(Accepted) || LeavesAs(h.stage) == Some(Delivered)
    ensures forall k | 0 <= k < |Verdicts(h)| - 1 :: Verdicts(h)[k] != Accepted
  {
    hide Backoff, TotalBackoff;
    forall k | 0 <= k < |Verdicts(h)| - 1 ensures Verdicts(h)[k] != Accepted {
      assert Verdicts(h)[k] == h.past[k] && h.past[k] in h.past;
    }
  }

  lemma VerdictsLast(holds: seq<Hold>, h: Hold)
    ensures AllVerdicts(holds + [h]) == AllVerdicts(holds) + Verdicts(h)
  {
    assert (holds + [h])[..|holds|] == holds;
  }

  /** What a reader's step adds to what was read, and leaves as it was. */
  predicate ReadsOn(c: Conn, d: Conn, chunk: bytes, ends: bool, leaves: bool) {
    && d.received == c.received + chunk && d.eof == (c.eof || ends)
    && Guarantees.Taken(d) == Guarantees.Taken(c) && Deserted(d) == Deserted(c)
    && (LeftEarly(d) ==> LeftEarly(c) || leaves)
  }

  function ChunkOf(l: ReaderStep): bytes {
    if l.Data? || l.HeaderData? then l.chunk else []
  }

  lemma HeaderReads(cfg: Config, c: Conn)
    requires Shape(cfg, c) && c.reader.HeaderParse?
    ensures ReadsOn(c, HeaderNext(c), [], false, false)
  {
    hide Proxy.Parse;
  }

  lemma DecodeReads(cfg: Config, c: Conn)
    requires c.reader.Decoding?
    ensures ReadsOn(c, DecodeNext(cfg, c), [], false, false)
  {
    hide Framing.DecodeTurn;
  }

  lemma InputReads(cfg: Config, cancelled: bool, c: Conn, l: ReaderStep)
    requires Shape(cfg, c) && InputNext(cfg, cancelled, c, l).Some?
    ensures ReadsOn(c, InputNext(cfg, cancelled, c, l).value, ChunkOf(l), l.Eof?,
                    l.Quit? || (l.SeeCancel? && cancelled))
  {
    hide HeaderNext, DecodeNext;
    match l
    case ParseHeader => HeaderReads(cfg, c);
    case Decode => DecodeReads(cfg, c);
    case _ =>
  }

  lemma ReaderReads(cfg: Config, env: Env, c: Conn, l: ReaderStep)
    requires Shape(cfg, c) && ReaderNext(cfg, env, c, l).Some?
    ensures ReadsOn(c, ReaderNext(cfg, env, c, l).value.next, ChunkOf(l), l.Eof?,
                    l.Quit? || (l.SeeCancel? && env.cancelled))
  {
    match l
    case Acquire | AssignId | GaugeUp | Send | SendFailed =>
      ReceiverOutlivesSender(cfg, env.shared, c);
      hide InputNext, FarewellNext, Shape;
    case DropSender | Join | CloseConn | CountClosed | Exit | Unwind => hide InputNext, HandoverNext, Shape;
    case _ =>
      hide InputNext, HandoverNext, FarewellNext, Shape, ReadsOn;
      InputReads(cfg, env.cancelled, c, l);
  }

  lemma CourierAnswers(cfg: Config, env: Env, issued: int, c: Conn, l: CourierStep)
    requires ConnOk(cfg, env.cancelled, issued, c) && CourierNext(env, c, l).Some?
    ensures var d := CourierNext(env, c, l).value.next;
            && d.received == c.received && d.eof == c.eof
            && AllVerdicts(Guarantees.Taken(d))
               == AllVerdicts(Guarantees.Taken(c)) + (if l.Attend? && l.l.Answer? then [l.l.verdict] else [])
            && (Deserted(d) ==> Deserted(c) || (l.Attend? && (l.l.Disconnected? || l.l.AnswerLost?)))
            && LeftEarly(d) == LeftEarly(c)
  {
    hide Shape, Order, HeadOfLine, GivesUp, HoldNext, Verdicts, AllVerdicts;
    match l
    case Attend(step) =>
      var h := c.courier.hold;
      HoldAnswers(true, env.cancelled, h, step);
      HoldLoses(true, env.cancelled, h, step);
      var next := HoldNext(Abandoned(WorkersLost), env.cancelled, h, step).value.hold;
      VerdictsLast(c.settled, h);
      VerdictsLast(c.settled, next);
      assert Guarantees.Taken(CourierNext(env, c, l).value.next) == c.settled + [next];
    case Recv =>
      var d := CourierNext(env, c, Recv).value.next;
      VerdictsLast(c.settled, d.courier.hold);
      NewVerdicts(d.courier.hold);
      assert Guarantees.Taken(c) == c.settled;
    case RecvClosed =>
  }

  lemma NewVerdicts(h: Hold)
    requires h.past == [] && (h.stage.Ready? || h.stage == Counting(Abandoned(Unattempted)))
    ensures Verdicts(h) == []
  {
  }

  // ------------------------------------------------------------------------- the whole system

  lemma NoteNothing(cfg: Config, s: System, step: Step, i: nat, r: Record)
    requires step.At? ==> step.i != i
    ensures Note(cfg, s, step, i, r) == r
  {
  }

  /** Places filled stay filled with the same. */
  lemma PlacesKept(s: seq<Task>, next: seq<Task>, j: nat, peer: Peer, d: Datagram)
    requires TasksGrow(s, next)
    ensures ConnectionFrom(s, j, peer) ==> ConnectionFrom(next, j, peer)
    ensures MadeOf(s, j, d) ==> MadeOf(next, j, d)
    ensures j < |s| && s[j].DatagramTask? ==>
              j < |next| && next[j].DatagramTask? && next[j].hold.msg == s[j].hold.msg
  {
    if j < |s| {
      assert Grows(s[j], next[j]);
    }
  }

  lemma TellsOn(cfg: Config, s: seq<Task>, next: seq<Task>, i: nat, r: Record)
    requires TasksGrow(s, next) && i < |s| && Tells(cfg, s, i, r) && next[i] == s[i]
    ensures Tells(cfg, next, i, r)
  {
    hide Grows, ConnectionFrom, MadeOf, AllVerdicts, Verdicts;
    if s[i].Listener? {
      forall k | 0 <= k < |r.spawned| ensures ConnectionFrom(next, r.spawned[k], r.admitted[k]) {
        PlacesKept(s, next, r.spawned[k], r.admitted[k], Datagram([], None));
      }
    } else if s[i].DatagramLoop? {
      DatagramsKept(cfg, s, next, r.spawned, r.taken, s[i].loop);
    }
  }

  lemma DatagramsKept(cfg: Config, s: seq<Task>, next: seq<Task>, places: seq<nat>, taken: seq<Datagram>,
                      t: DatagramListener)
    requires TasksGrow(s, next) && |places| <= |taken| && InIdOrder(s, places, t)
    requires forall k | 0 <= k < |places| :: MadeOf(s, places[k], taken[k])
    ensures InIdOrder(next, places, t)
    ensures forall k | 0 <= k < |places| :: MadeOf(next, places[k], taken[k])
  {
    hide Grows;
    forall k | 0 <= k < |places|
      ensures MadeOf(next, places[k], taken[k]) && places[k] < |next| && next[places[k]].DatagramTask?
      ensures next[places[k]].hold.msg == s[places[k]].hold.msg
    {
      PlacesKept(s, next, places[k], None, taken[k]);
    }
  }

  lemma TaskOf(cfg: Config, s: System, i: nat)
    requires Inv(cfg, s) && i < |s.tasks|
    ensures TaskOk(cfg, s.cancelled, s.shared.issued, s.tasks[i])
  {
    hide Accounted, Distinct, Covered, Bounded, TaskOk;
  }

  lemma ConnOf(cfg: Config, cancelled: bool, issued: int, t: Task)
    requires TaskOk(cfg, cancelled, issued, t) && t.Serving?
    ensures ConnOk(cfg, cancelled, issued, t.conn) && Shape(cfg, t.conn)
  {
    hide Order, HeadOfLine, HoldsOk, GivesUp, Increasing;
  }

  /** What one step of task `i` makes of the record of task `i`. */
  lemma ServingTells(cfg: Config, s: System, i: nat, l: TaskStep, a: Acted, next: seq<Task>, r: Record)
    requires i < |s.tasks| && s.tasks[i].Serving? && TaskOk(cfg, s.cancelled, s.shared.issued, s.tasks[i])
    requires TaskNext(cfg, Env(s.cancelled, s.shared), s.tasks[i], l) == Some(a)
    requires i < |next| && next[i] == a.next && Tells(cfg, s.tasks, i, r)
    ensures Tells(cfg, next, i, Note(cfg, s, At(i, l), i, r))
  {
    hide ReaderNext, CourierNext, AllVerdicts, ConnOk, Shape, TaskOk;
    var env := Env(s.cancelled, s.shared);
    ConnOf(cfg, s.cancelled, s.shared.issued, s.tasks[i]);
    match l
    case ReaderDo(step) => ReaderReads(cfg, env, s.tasks[i].conn, step);
    case CourierDo(step) => CourierAnswers(cfg, env, s.shared.issued, s.tasks[i].conn, step);
    case _ =>
  }

  lemma DatagramTells(cfg: Config, s: System, i: nat, l: TaskStep, a: Acted, next: seq<Task>, r: Record)
    requires i < |s.tasks| && s.tasks[i].DatagramTask? && TaskOk(cfg, s.cancelled, s.shared.issued, s.tasks[i])
    requires TaskNext(cfg, Env(s.cancelled, s.shared), s.tasks[i], l) == Some(a)
    requires i < |next| && next[i] == a.next && Tells(cfg, s.tasks, i, r)
    ensures Tells(cfg, next, i, Note(cfg, s, At(i, l), i, r))
  {
    hide HoldNext, Verdicts, HoldOk, LeavesAs;
    if l.DatagramDo? {
      HoldAnswers(false, s.cancelled, s.tasks[i].hold, l.attend);
      HoldLoses(false, s.cancelled, s.tasks[i].hold, l.attend);
    }
  }

  lemma ListenerTells(cfg: Config, s: System, i: nat, l: TaskStep, a: Acted, next: seq<Task>, r: Record)
    requires i < |s.tasks| && s.tasks[i].Listener? && Tells(cfg, s.tasks, i, r)
    requires TaskNext(cfg, Env(s.cancelled, s.shared), s.tasks[i], l) == Some(a)
    requires next == s.tasks[i := a.next] + a.spawned && TasksGrow(s.tasks, next)
    ensures Tells(cfg, next, i, Note(cfg, s, At(i, l), i, r))
  {
    hide Grows, NewConn;
    forall k | 0 <= k < |r.spawned| ensures ConnectionFrom(next, r.spawned[k], r.admitted[k]) {
      PlacesKept(s.tasks, next, r.spawned[k], r.admitted[k], Datagram([], None));
    }
    if l == ListenerDo(SpawnStream) {
      NewConnFrom(cfg, s.tasks[i].listener.peer);
      assert next[|s.tasks|] == a.spawned[0];
      assert ConnectionFrom(next, |s.tasks|, s.tasks[i].listener.peer);
    }
    hide ConnectionFrom;
  }

  lemma NewConnFrom(cfg: Config, peer: Peer)
    ensures NewConn(cfg, peer).ownPeer == peer
  {
  }

  /** Every message so far has an id up to the last one issued. */
  lemma IdIssued(cfg: Config, s: System, j: nat)
    requires Inv(cfg, s) && j < |s.tasks| && s.tasks[j].DatagramTask?
    ensures s.tasks[j].hold.msg.id <= s.shared.issued
  {
    TaskOf(cfg, s, j);
    hide Inv, HoldOk;
    assert TaskMsgs(s.tasks[j])[0] == s.tasks[j].hold.msg;
  }

  lemma LoopTells(cfg: Config, s: System, i: nat, l: TaskStep, a: Acted, next: seq<Task>, r: Record)
    requires i < |s.tasks| && s.tasks[i].DatagramLoop? && Tells(cfg, s.tasks, i, r) && Inv(cfg, s)
    requires TaskNext(cfg, Env(s.cancelled, s.shared), s.tasks[i], l) == Some(a)
    requires next == s.tasks[i := a.next] + a.spawned && TasksGrow(s.tasks, next)
    ensures Tells(cfg, next, i, Note(cfg, s, At(i, l), i, r))
  {
    hide Grows, Inv, Note, MadeOf, InIdOrder, DatagramLoopNext;
    var loop := s.tasks[i].loop;
    DatagramsKept(cfg, s.tasks, next, r.spawned, r.taken, loop);
    if l == DatagramLoopDo(SpawnDatagram) {
      SpawnTells(cfg, s, i, a, next, r);
    } else {
      if l == DatagramLoopDo(NameDatagram) {
        forall k | 0 <= k < |r.spawned|
          ensures r.spawned[k] < |next| && next[r.spawned[k]].DatagramTask?
          ensures next[r.spawned[k]].hold.msg.id <= s.shared.issued
        {
          PlaceOf(s.tasks, r.spawned, loop, k);
          IdIssued(cfg, s, r.spawned[k]);
          PlacesKept(s.tasks, next, r.spawned[k], None, r.taken[k]);
        }
      }
      MoveTells(cfg, s, i, l, a, next, r);
    }
  }

  lemma PlaceOf(tasks: seq<Task>, places: seq<nat>, t: DatagramListener, k: nat)
    requires InIdOrder(tasks, places, t) && k < |places|
    ensures places[k] < |tasks| && tasks[places[k]].DatagramTask?
  {
  }

  /** A step of the loop other than spawning. */
  lemma MoveTells(cfg: Config, s: System, i: nat, l: TaskStep, a: Acted, next: seq<Task>, r: Record)
    requires i < |s.tasks| && s.tasks[i].DatagramLoop? && Tells(cfg, s.tasks, i, r)
    requires l != DatagramLoopDo(SpawnDatagram)
    requires TaskNext(cfg, Env(s.cancelled, s.shared), s.tasks[i], l) == Some(a)
    requires i < |next| && next[i] == a.next && InIdOrder(next, r.spawned, s.tasks[i].loop)
    requires forall k | 0 <= k < |r.spawned| :: MadeOf(next, r.spawned[k], r.taken[k])
    requires l == DatagramLoopDo(NameDatagram) ==>
               forall k | 0 <= k < |r.spawned| :: next[r.spawned[k]].hold.msg.id <= s.shared.issued
    ensures Tells(cfg, next, i, Note(cfg, s, At(i, l), i, r))
  {
    hide MadeOf;
  }

  lemma SpawnTells(cfg: Config, s: System, i: nat, a: Acted, next: seq<Task>, r: Record)
    requires i < |s.tasks| && s.tasks[i].DatagramLoop? && Tells(cfg, s.tasks, i, r)
    requires TaskNext(cfg, Env(s.cancelled, s.shared), s.tasks[i], DatagramLoopDo(SpawnDatagram)) == Some(a)
    requires next == s.tasks[i := a.next] + a.spawned && TasksGrow(s.tasks, next)
    requires InIdOrder(next, r.spawned, s.tasks[i].loop)
    requires forall k | 0 <= k < |r.spawned| :: MadeOf(next, r.spawned[k], r.taken[k])
    ensures Tells(cfg, next, i, Note(cfg, s, At(i, DatagramLoopDo(SpawnDatagram)), i, r))
  {
    hide Grows;
    assert next[|s.tasks|] == a.spawned[0];
    assert MadeOf(next, |s.tasks|, InHand(s.tasks[i].loop)[0]);
    hide MadeOf;
  }

  // ------------------------------------------------------------------------------ every run

  lemma StepTells(cfg: Config, s: System, step: Step, i: nat, r: Record)
    requires Inv(cfg, s) && AllSteady(s.tasks) && Next(cfg, s, step).Some? && i < |s.tasks| && Tells(cfg, s.tasks, i, r)
    ensures var next := Next(cfg, s, step).value.tasks;
            i < |next| && Tells(cfg, next, i, Note(cfg, s, step, i, r))
  {
    hide Inv, TaskNext, Tells, AllSteady, TaskOk, Grows, Note;
    var next := Next(cfg, s, step).value.tasks;
    StepGrows(cfg, s, step);
    if step.At? && step.i == i {
      var a := TaskNext(cfg, Env(s.cancelled, s.shared), s.tasks[i], step.l).value;
      TaskOf(cfg, s, i);
      match s.tasks[i]
      case Listener(_) => ListenerTells(cfg, s, i, step.l, a, next, r);
      case DatagramLoop(_, _) => LoopTells(cfg, s, i, step.l, a, next, r);
      case Serving(_) => ServingTells(cfg, s, i, step.l, a, next, r);
      case DatagramTask(_, _) => DatagramTells(cfg, s, i, step.l, a, next, r);
    } else {
      NoteNothing(cfg, s, step, i, r);
      TellsOn(cfg, s.tasks, next, i, r);
    }
  }

  lemma BlankTells(cfg: Config, s: System, step: Step, i: nat)
    requires Next(cfg, s, step).Some? && |s.tasks| <= i < |Next(cfg, s, step).value.tasks|
    ensures Tells(cfg, Next(cfg, s, step).value.tasks, i, BLANK)
  {
    hide HoldNext, ReaderNext, CourierNext;
  }

  lemma InitialTells(cfg: Config, streams: nat, datagrams: bool, i: nat)
    requires i < |Initial(cfg, streams, datagrams).tasks|
    ensures Tells(cfg, Initial(cfg, streams, datagrams).tasks, i, BLANK)
  {
  }

  lemma {:induction false} Journaled(cfg: Config, streams: nat, datagrams: bool, run: seq<Step>, i: nat)
    requires Execute(cfg, Initial(cfg, streams, datagrams), run).Some?
    ensures var start := Initial(cfg, streams, datagrams);
            var tasks := Execute(cfg, start, run).value.tasks;
            if i < |tasks| then Tells(cfg, tasks, i, Recorded(cfg, start, run, i))
            else Recorded(cfg, start, run, i) == BLANK
    decreases |run|
  {
    hide Inv, Next, Tells, AllSteady, Initial, Note;
    var start := Initial(cfg, streams, datagrams);
    if run == [] {
      if i < |start.tasks| {
        InitialTells(cfg, streams, datagrams, i);
      }
    } else {
      var before, last := run[..|run| - 1], run[|run| - 1];
      Journaled(cfg, streams, datagrams, before, i);
      var s := Execute(cfg, start, before).value;
      SoundAt(cfg, streams, datagrams, before);
      if i < |s.tasks| {
        StepTells(cfg, s, last, i, Recorded(cfg, start, before, i));
      } else {
        StepNotYet(cfg, s, last, i);
        if i < |Next(cfg, s, last).value.tasks| {
          BlankTells(cfg, s, last, i);
        }
      }
    }
  }

  lemma StepNotYet(cfg: Config, s: System, step: Step, i: nat)
    requires Next(cfg, s, step).Some? && |s.tasks| <= i
    ensures Note(cfg, s, step, i, BLANK) == BLANK
  {
    NoteNothing(cfg, s, step, i, BLANK);
  }

  lemma SoundAt(cfg: Config, streams: nat, datagrams: bool, run: seq<Step>)
    requires Execute(cfg, Initial(cfg, streams, datagrams), run).Some?
    ensures var s := Execute(cfg, Initial(cfg, streams, datagrams), run).value;
            Reachable(cfg, s) && Inv(cfg, s) && AllSteady(s.tasks)
  {
    hide Inv, Execute, AllSteady;
    var s := Execute(cfg, Initial(cfg, streams, datagrams), run).value;
    ReachableInv(cfg, s);
    ReachableSteady(cfg, s);
  }

  // ------------------------------------------------------------------- what it comes to

  /** The state a run ends in. */
  function After(cfg: Config, streams: nat, datagrams: bool, run: seq<Step>): System
    requires Execute(cfg, Initial(cfg, streams, datagrams), run).Some?
  {
    Execute(cfg, Initial(cfg, streams, datagrams), run).value
  }

  /** What the run brought to task `i`. */
  function Inputs(cfg: Config, streams: nat, datagrams: bool, run: seq<Step>, i: nat): Record {
    Recorded(cfg, Initial(cfg, streams, datagrams), run, i)
  }

  /** Connections. For every run and every listener: the k-th connection it spawned is
      from the peer of the k-th accept that found fewer connections counted than the
      limit; at most one such accept is still on its way. */
  lemma ConnectionsFromAccepts(cfg: Config, streams: nat, datagrams: bool, run: seq<Step>, l: nat)
    requires Execute(cfg, Initial(cfg, streams, datagrams), run).Some?
    requires var tasks := After(cfg, streams, datagrams, run).tasks; l < |tasks| && tasks[l].Listener?
    ensures var tasks := After(cfg, streams, datagrams, run).tasks; var r := Inputs(cfg, streams, datagrams, run, l);
            && |r.spawned| <= |r.admitted| <= |r.spawned| + 1
            && forall k | 0 <= k < |r.spawned| :: ConnectionFrom(tasks, r.spawned[k], r.admitted[k])
  {
    hide Execute, Recorded, ConnectionFrom;
    Journaled(cfg, streams, datagrams, run, l);
  }

  /** Datagrams. For every run the messages spawned for datagrams are, in the order of
      their ids and with body and peer unchanged, those received that were shorter than
      the buffer and found a credit; the rest of those are one at most, in hand; and as
      many as found none were turned away. */
  lemma DatagramsFromReceives(cfg: Config, streams: nat, datagrams: bool, run: seq<Step>, l: nat)
    requires Execute(cfg, Initial(cfg, streams, datagrams), run).Some?
    requires var tasks := After(cfg, streams, datagrams, run).tasks; l < |tasks| && tasks[l].DatagramLoop?
    ensures var tasks := After(cfg, streams, datagrams, run).tasks; var r := Inputs(cfg, streams, datagrams, run, l);
            && |r.spawned| <= |r.taken| && r.taken[|r.spawned|..] == InHand(tasks[l].loop)
            && (forall k | 0 <= k < |r.spawned| :: MadeOf(tasks, r.spawned[k], r.taken[k]))
            && InIdOrder(tasks, r.spawned, tasks[l].loop)
            && tasks[l].starved == r.turnedAway
  {
    hide Execute, Recorded, MadeOf, InIdOrder;
    Journaled(cfg, streams, datagrams, run, l);
  }

  /** Bytes and answers. For every run, what a connection has read is what was sent to
      it, the verdicts of its messages are, one message after the other, the answers
      that were given to it, none is given up for want of workers unless there was, and
      the reader does not leave a stream it can follow before its end unless it must. */
  lemma ConnectionInputs(cfg: Config, streams: nat, datagrams: bool, run: seq<Step>, i: nat)
    requires Execute(cfg, Initial(cfg, streams, datagrams), run).Some?
    requires var tasks := After(cfg, streams, datagrams, run).tasks; i < |tasks| && tasks[i].Serving?
    ensures var c := After(cfg, streams, datagrams, run).tasks[i].conn;
            var r := Inputs(cfg, streams, datagrams, run, i);
            && c.received == r.read && c.eof == r.ended && AllVerdicts(Guarantees.Taken(c)) == r.answers
            && (Deserted(c) ==> r.lost) && (LeftEarly(c) ==> r.left)
  {
    hide Execute, Recorded, AllVerdicts;
    Journaled(cfg, streams, datagrams, run, i);
  }

  /** A datagram has at most one answer. It is delivered if and only if that is to accept
      it, and dropped only if it is not or none came. */
  lemma DatagramAnswer(cfg: Config, streams: nat, datagrams: bool, run: seq<Step>, i: nat)
    requires Execute(cfg, Initial(cfg, streams, datagrams), run).Some?
    requires var tasks := After(cfg, streams, datagrams, run).tasks; i < |tasks| && tasks[i].DatagramTask?
    ensures var h := After(cfg, streams, datagrams, run).tasks[i].hold;
            var r := Inputs(cfg, streams, datagrams, run, i);
            && |r.answers| <= 1
            && (h.stage.Done? ==> (h.stage.outcome == Delivered <==> r.answers == [Accepted]))
            && (h.stage == Done(Dropped) ==> r.lost || r.answers == [Refused] || r.answers == [Failed])
  {
    hide Execute, Recorded;
    Journaled(cfg, streams, datagrams, run, i);
    SoundAt(cfg, streams, datagrams, run);
    TaskOf(cfg, After(cfg, streams, datagrams, run), i);
    var s := After(cfg, streams, datagrams, run);
    hide Inv, AllSteady, Reachable, Verdicts, HoldOk;
    DatagramOutcome(s.cancelled, s.tasks[i].hold);
  }

  lemma DatagramOutcome(cancelled: bool, h: Hold)
    requires HoldOk(false, cancelled, h)
    ensures |Verdicts(h)| <= 1
    ensures h.stage.Done? ==> (h.stage.outcome == Delivered <==> Verdicts(h) == [Accepted])
    ensures h.stage == Done(Dropped) && Verdicts(h) != [] ==> Verdicts(h) == [Refused] || Verdicts(h) == [Failed]
  {
    hide Backoff, TotalBackoff;
    assert Accepted in [Accepted];
    assert h.past + [] == h.past;
    if |h.past| == 1 {
      assert h.past[0] in h.past && (h.past[0] == Refused || h.past[0] == Failed);
      assert h.past == [h.past[0]];
    }
  }

  /** Every connection and every datagram in delivery was spawned in the run. */
  lemma {:induction false} SpawnedSomewhere(cfg: Config, streams: nat, datagrams: bool, run: seq<Step>, i: nat)
    returns (l: nat, k: nat)
    requires Execute(cfg, Initial(cfg, streams, datagrams), run).Some?
    requires var tasks := After(cfg, streams, datagrams, run).tasks;
             i < |tasks| && (tasks[i].Serving? || tasks[i].DatagramTask?)
    ensures var tasks := After(cfg, streams, datagrams, run).tasks; var r := Inputs(cfg, streams, datagrams, run, l);
            && l < |tasks| && k < |r.spawned| && r.spawned[k] == i
            && (tasks[i].Serving? ==> tasks[l].Listener?) && (tasks[i].DatagramTask? ==> tasks[l].DatagramLoop?)
    decreases |run|
  {
    hide Next, AllSteady, Inv, Grows;
    if run == [] {
      NoneAtStart(cfg, streams, datagrams, i);
    } else {
      var before, last := run[..|run| - 1], run[|run| - 1];
      SoundAt(cfg, streams, datagrams, before);
      var s := After(cfg, streams, datagrams, before);
      StepGrows(cfg, s, last);
      if i < |s.tasks| {
        KindsKept(s.tasks, Next(cfg, s, last).value.tasks, i);
        l, k := SpawnedSomewhere(cfg, streams, datagrams, before, i);
        KindsKept(s.tasks, Next(cfg, s, last).value.tasks, l);
      } else {
        l := SpawnerOf(cfg, s, last, i);
        k := |Inputs(cfg, streams, datagrams, before, l).spawned|;
      }
    }
  }

  lemma NoneAtStart(cfg: Config, streams: nat, datagrams: bool, i: nat)
    requires i < |Initial(cfg, streams, datagrams).tasks|
    ensures var t := Initial(cfg, streams, datagrams).tasks[i]; !t.Serving? && !t.DatagramTask?
  {
  }

  lemma KindsKept(s: seq<Task>, next: seq<Task>, i: nat)
    requires TasksGrow(s, next) && i < |s|
    ensures s[i].Serving? <==> next[i].Serving?
    ensures s[i].DatagramTask? <==> next[i].DatagramTask?
    ensures s[i].Listener? <==> next[i].Listener?
    ensures s[i].DatagramLoop? <==> next[i].DatagramLoop?
  {
    assert Grows(s[i], next[i]);
  }

  lemma SpawnerOf(cfg: Config, s: System, step: Step, i: nat) returns (l: nat)
    requires Next(cfg, s, step).Some? && |s.tasks| <= i < |Next(cfg, s, step).value.tasks|
    ensures var next := Next(cfg, s, step).value.tasks;
            && l < |next| && SpawnNow(s, step, l) == [i]
            && (next[i].Serving? ==> next[l].Listener?) && (next[i].DatagramTask? ==> next[l].DatagramLoop?)
  {
    hide HoldNext, ReaderNext, CourierNext, NewConn;
    l := step.i;
  }

  /** Admission. An accept is admitted if and only if fewer connections are counted than
      the limit, and then as the peer it came from, however long the check takes and
      whatever has happened to the counter meanwhile. */
  lemma AcceptAdmits(cfg: Config, s: System, i: nat, peer: Peer, later: Env)
    requires Next(cfg, s, At(i, ListenerDo(Accept(peer)))).Some?
    ensures var t := Next(cfg, s, At(i, ListenerDo(Accept(peer)))).value.tasks[i];
            && t.Listener? && ListenerNext(cfg, later, t.listener, CheckLimit).Some?
            && ListenerNext(cfg, later, t.listener, CheckLimit).value.next.Listener?
            && var checked := ListenerNext(cfg, later, t.listener, CheckLimit).value.next.listener;
               checked == if s.shared.connections < cfg.maxConnections then Admitted(peer) else Undoing
  {
  }

  lemma CancelKept(cfg: Config, s: System, step: Step)
    requires Next(cfg, s, step).Some?
    ensures Next(cfg, s, step).value.cancelled <==> s.cancelled || step == Cancel
  {
    hide TaskNext, Post;
  }

  /** Shutdown is under way if and only if it was begun. */
  lemma {:induction false} ShutdownBegun(cfg: Config, streams: nat, datagrams: bool, run: seq<Step>)
    requires Execute(cfg, Initial(cfg, streams, datagrams), run).Some?
    ensures After(cfg, streams, datagrams, run).cancelled <==> Cancel in run
    decreases |run|
  {
    hide Next;
    if run != [] {
      var before, step := run[..|run| - 1], run[|run| - 1];
      assert run == before + [step];
      ShutdownBegun(cfg, streams, datagrams, before);
      CancelKept(cfg, After(cfg, streams, datagrams, before), step);
    }
  }
}
