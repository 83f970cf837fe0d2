/** Conservation: every shared counter is accounted for, at every moment of every
    run, by where the tasks and their messages are. */
module Conservation {
  import opened Bytes
  import opened Delivery
  import opened Protocol

  // ------------------------------------------------------- what a position accounts for

  /** The outcome a message has already been counted under. */
  function CountedAs(stage: Stage): Option<Outcome> {
    match stage
    case Releasing(o) => Some(o)
    case Freeing(o) => Some(o)
    case Done(o) => Some(o)
    case _ => None
  }

  function HoldTally(h: Hold): Tally {
    var counted := CountedAs(h.stage);
    Tally(
      credits := if h.stage.Done? then 0 else -1,
      pending := if h.stage.Freeing? || h.stage.Done? then 0 else 1,
      delivered := if counted == Some(Delivered) then 1 else 0,
      refused := multiset(h.past)[Refused],
      errors := multiset(h.past)[Failed],
      abandoned := if counted.Some? && counted.value.Abandoned? then 1 else 0,
      dropped := if counted == Some(Dropped) then 1 else 0,
      issued := 1)
  }

  function HoldsTally(holds: seq<Hold>): Tally {
    if holds == [] then ZERO_TALLY
    else Plus(HoldsTally(holds[..|holds| - 1]), HoldTally(holds[|holds| - 1]))
  }

  /** Messages in a connection's channel hold a credit and a place in the gauge. */
  function QueuedTally(n: nat): Tally {
    Tally(credits := 0 - n, pending := n, issued := n)
  }

  function ReaderTally(r: Reader): Tally {
    var open := !(r.CountingClosed? || r.Ending? || r.Gone?);
    Tally(
      credits := if r.HaveCredit? || r.HaveId? || r.Sending? then -1 else 0,
      pending := if r.Sending? then 1 else 0,
      connections := if open then 1 else 0,
      served := if open then 1 else 0,
      opens := 1,
      closes := if r.Ending? || r.Gone? then 1 else 0,
      tracked := if r.Gone? || r.Crashed? then 0 else 1,
      issued := if r.HaveId? || r.Sending? then 1 else 0)
  }

  function CourierTally(k: Courier): Tally {
    if k.Holding? then HoldTally(k.hold) else ZERO_TALLY
  }

  function ConnTally(c: Conn): Tally {
    Plus(Plus(ReaderTally(c.reader), QueuedTally(|c.channel|)), Plus(CourierTally(c.courier), HoldsTally(c.settled)))
  }

  function ListenerTally(cfg: Config, l: StreamListener): Tally {
    var within := l.Admitted? || l.Opened? || (l.Added? && l.before < cfg.maxConnections);
    Tally(
      connections := if l.Accepting? || l.Stopped? then 0 else 1,
      served := if within then 1 else 0,
      opens := if l.Opened? then 1 else 0,
      tracked := if l.Stopped? then 0 else 1)
  }

  function DatagramLoopTally(d: DatagramListener, starved: nat): Tally {
    Tally(
      credits := if d.DatagramCredited? || d.DatagramNamed? || d.DatagramGauged? then -1 else 0,
      pending := if d.DatagramGauged? then 1 else 0,
      dropped := starved,
      tracked := if d.DatagramStopped? then 0 else 1,
      issued := if d.DatagramNamed? || d.DatagramGauged? then 1 else 0)
  }

  function TaskTally(cfg: Config, t: Task): Tally {
    match t
    case Listener(l) => ListenerTally(cfg, l)
    case DatagramLoop(d, starved) => DatagramLoopTally(d, starved)
    case Serving(c) => ConnTally(c)
    case DatagramTask(h, over) => Plus(HoldTally(h), Tally(tracked := if over then 0 else 1))
  }

  function Total(cfg: Config, tasks: seq<Task>): Tally {
    if tasks == [] then ZERO_TALLY
    else Plus(Total(cfg, tasks[..|tasks| - 1]), TaskTally(cfg, tasks[|tasks| - 1]))
  }

  /** `b` is `a` changed by `delta`, counter by counter. */
  predicate Shifted(a: Tally, delta: Tally, b: Tally) {
    && b.credits == a.credits + delta.credits
    && b.pending == a.pending + delta.pending
    && b.delivered == a.delivered + delta.delivered
    && b.refused == a.refused + delta.refused
    && b.errors == a.errors + delta.errors
    && b.abandoned == a.abandoned + delta.abandoned
    && b.dropped == a.dropped + delta.dropped
    && b.connections == a.connections + delta.connections
    && b.served == a.served + delta.served
    && b.opens == a.opens + delta.opens
    && b.closes == a.closes + delta.closes
    && b.tracked == a.tracked + delta.tracked
    && b.issued == a.issued + delta.issued
  }

  lemma ShiftedIsPlus(a: Tally, delta: Tally, b: Tally)
    requires Shifted(a, delta, b)
    ensures b == Plus(a, delta)
  {
  }

  // ----------------------------------------------------------------- one step at a time

  /** Each step changes the shared counters by exactly what it changes the position. */
  lemma HoldConserves(lost: Outcome, cancelled: bool, h: Hold, l: HoldStep)
    requires h.stage != Counting(Delivered)
    requires HoldNext(lost, cancelled, h, l).Some?
    ensures var held := HoldNext(lost, cancelled, h, l).value;
            HoldTally(held.hold) == Plus(HoldTally(h), held.delta)
  {
    if l.CountVerdict? {
      VerdictConserves(lost, cancelled, h);
    } else {
      hide Plus;
      var held := HoldNext(lost, cancelled, h, l).value;
      ShiftedIsPlus(HoldTally(h), held.delta, HoldTally(held.hold));
    }
  }

  lemma VerdictConserves(lost: Outcome, cancelled: bool, h: Hold)
    requires HoldNext(lost, cancelled, h, CountVerdict).Some?
    ensures var held := HoldNext(lost, cancelled, h, CountVerdict).value;
            HoldTally(held.hold) == Plus(HoldTally(h), held.delta)
  {
    hide Plus;
    var held := HoldNext(lost, cancelled, h, CountVerdict).value;
    var v := h.stage.verdict;
    assert multiset(h.past + [v]) == multiset(h.past) + multiset{v};
    ShiftedIsPlus(HoldTally(h), held.delta, HoldTally(held.hold));
  }

  lemma HoldsTallyAppend(holds: seq<Hold>, h: Hold)
    ensures HoldsTally(holds + [h]) == Plus(HoldsTally(holds), HoldTally(h))
  {
    assert (holds + [h])[..|holds|] == holds;
  }

  /** A change of the reader's position alone. */
  lemma ReaderShift(c: Conn, next: Conn, delta: Tally)
    requires |next.channel| == |c.channel| && next.settled == c.settled
    requires CourierTally(next.courier) == CourierTally(c.courier)
    requires ReaderTally(next.reader) == Plus(ReaderTally(c.reader), delta)
    ensures ConnTally(next) == Plus(ConnTally(c), delta)
  {
    hide HoldsTally, CourierTally, ReaderTally, QueuedTally;
  }

  lemma ReaderConserves(cfg: Config, env: Env, c: Conn, l: ReaderStep)
    requires ReaderNext(cfg, env, c, l).Some? && !l.SendFailed?
    requires c.reader.HeaderParse? ==> c.courier.NotStarted?
    ensures var m := ReaderNext(cfg, env, c, l).value;
            ConnTally(m.next) == Plus(ConnTally(c), m.delta)
  {
    hide ConnTally, HoldTally, HoldsTally, HandoverNext, FarewellNext, InputNext, Plus, ReaderTally;
    var m := ReaderNext(cfg, env, c, l).value;
    match l
    case Acquire | AssignId | GaugeUp | Send => HandoverConserves(cfg, env.shared, c, l);
    case DropSender | Join | CloseConn | CountClosed | Exit | Unwind => FarewellConserves(c, l);
    case _ =>
      InputConserves(cfg, env.cancelled, c, l);
      PlusZero(ConnTally(c));
  }

  lemma InputConserves(cfg: Config, cancelled: bool, c: Conn, l: ReaderStep)
    requires InputNext(cfg, cancelled, c, l).Some?
    requires c.reader.HeaderParse? ==> c.courier.NotStarted?
    ensures ConnTally(InputNext(cfg, cancelled, c, l).value) == ConnTally(c)
  {
    hide HoldTally, HoldsTally, HeaderNext, DecodeNext, Plus, QueuedTally;
    match l
    case ParseHeader => HeaderKeeps(c);
    case Decode => DecodeKeeps(cfg, c);
    case _ =>
  }

  lemma HandoverConserves(cfg: Config, shared: Tally, c: Conn, l: ReaderStep)
    requires HandoverNext(cfg, shared, c, l).Some? && !l.SendFailed?
    ensures var m := HandoverNext(cfg, shared, c, l).value;
            ConnTally(m.next) == Plus(ConnTally(c), m.delta)
  {
    hide ConnTally, HoldTally, HoldsTally, Plus;
    var m := HandoverNext(cfg, shared, c, l).value;
    if l.Send? {
      SendConserves(c, m.next);
    } else {
      ShiftedIsPlus(ReaderTally(c.reader), m.delta, ReaderTally(m.next.reader));
      ReaderShift(c, m.next, m.delta);
    }
  }

  lemma FarewellConserves(c: Conn, l: ReaderStep)
    requires FarewellNext(c, l).Some?
    ensures var m := FarewellNext(c, l).value;
            ConnTally(m.next) == Plus(ConnTally(c), m.delta)
  {
    hide ConnTally, HoldTally, HoldsTally, Plus;
    var m := FarewellNext(c, l).value;
    ShiftedIsPlus(ReaderTally(c.reader), m.delta, ReaderTally(m.next.reader));
    ReaderShift(c, m.next, m.delta);
  }

  /** Handing a message to the channel moves its credit and its place in the gauge. */
  lemma SendConserves(c: Conn, next: Conn)
    requires c.reader.Sending? && next == c.(reader := Decoding, channel := c.channel + [c.reader.msg])
    ensures ConnTally(next) == Plus(ConnTally(c), ZERO_TALLY)
  {
    hide HoldsTally, CourierTally;
  }

  lemma HeaderKeeps(c: Conn)
    requires c.reader.HeaderParse? && c.courier.NotStarted?
    ensures var next := HeaderNext(c);
            && next.channel == c.channel && next.settled == c.settled
            && CourierTally(next.courier) == CourierTally(c.courier)
            && ReaderTally(next.reader) == ReaderTally(c.reader)
  {
    hide Proxy.Parse;
  }

  lemma DecodeKeeps(cfg: Config, c: Conn)
    requires c.reader.Decoding?
    ensures var next := DecodeNext(cfg, c);
            && next.channel == c.channel && next.settled == c.settled && next.courier == c.courier
            && ReaderTally(next.reader) == ReaderTally(c.reader)
  {
    hide Framing.DecodeTurn;
  }

  lemma CourierConserves(env: Env, c: Conn, l: CourierStep)
    requires CourierNext(env, c, l).Some?
    requires c.courier.Holding? ==> c.courier.hold.stage != Counting(Delivered)
    ensures var m := CourierNext(env, c, l).value;
            ConnTally(m.next) == Plus(ConnTally(c), m.delta)
  {
    hide HoldsTally, ReaderTally, HoldNext, HoldTally;
    match l
    case Attend(step) => AttendConserves(env, c, step);
    case Recv => RecvConserves(env, c);
    case RecvClosed =>
  }

  lemma RecvConserves(env: Env, c: Conn)
    requires CourierNext(env, c, Recv).Some?
    ensures ConnTally(CourierNext(env, c, Recv).value.next) == ConnTally(c)
  {
    hide HoldsTally, ReaderTally;
  }

  lemma AttendConserves(env: Env, c: Conn, l: HoldStep)
    requires CourierNext(env, c, Attend(l)).Some?
    requires c.courier.hold.stage != Counting(Delivered)
    ensures var m := CourierNext(env, c, Attend(l)).value;
            ConnTally(m.next) == Plus(ConnTally(c), m.delta)
  {
    hide HoldsTally, HoldTally, HoldNext, ReaderTally, QueuedTally, Plus;
    var h := c.courier.hold;
    HoldConserves(Abandoned(WorkersLost), env.cancelled, h, l);
    var held := HoldNext(Abandoned(WorkersLost), env.cancelled, h, l).value;
    HoldsTallyAppend(c.settled, held.hold);
    PlusInside(Plus(ReaderTally(c.reader), QueuedTally(|c.channel|)), HoldTally(h), HoldsTally(c.settled), held.delta);
  }

  lemma PlusInside(a: Tally, b: Tally, c: Tally, delta: Tally)
    ensures Plus(a, Plus(Plus(b, delta), c)) == Plus(Plus(a, Plus(b, c)), delta)
    ensures Plus(a, Plus(ZERO_TALLY, Plus(c, Plus(b, delta)))) == Plus(Plus(a, Plus(b, c)), delta)
  {
  }

  lemma ListenerConserves(cfg: Config, env: Env, t: StreamListener, l: ListenerStep)
    requires ListenerNext(cfg, env, t, l).Some?
    ensures Conserves(cfg, Listener(t), ListenerNext(cfg, env, t, l).value)
  {
    hide Total, ConnTally, NewConn, Conserves;
    var a := ListenerNext(cfg, env, t, l).value;
    if l.SpawnStream? {
      SpawnConserves(cfg, t.peer);
    } else {
      hide ListenerTally, Plus, ListenerNext;
      ListenerShift(cfg, env, t, l);
      QuietConserves(cfg, Listener(t), a.next, a.delta);
    }
  }

  lemma ListenerShift(cfg: Config, env: Env, t: StreamListener, l: ListenerStep)
    requires ListenerNext(cfg, env, t, l).Some? && !l.SpawnStream?
    ensures var a := ListenerNext(cfg, env, t, l).value;
            && a.next.Listener? && a.spawned == []
            && ListenerTally(cfg, a.next.listener) == Plus(ListenerTally(cfg, t), a.delta)
  {
    hide Plus, NewConn;
    var a := ListenerNext(cfg, env, t, l).value;
    ShiftedIsPlus(ListenerTally(cfg, t), a.delta, ListenerTally(cfg, a.next.listener));
  }

  lemma SpawnConserves(cfg: Config, peer: Peer)
    ensures Conserves(cfg, Listener(Opened(peer)),
                      Acted(Listener(Accepting), [Serving(NewConn(cfg, peer))], Tally(tracked := 1)))
  {
    hide Total, ConnTally, NewConn;
    NewConnTally(cfg, peer);
    TotalOne(cfg, Serving(NewConn(cfg, peer)));
    ListenerAccounts(cfg, peer);
    hide ListenerTally, Plus;
    PlusCommutes(Tally(tracked := 1), ConnTally(NewConn(cfg, peer)));
  }

  lemma ListenerAccounts(cfg: Config, peer: Peer)
    ensures ListenerTally(cfg, Opened(peer)) == Tally(connections := 1, served := 1, opens := 1, tracked := 1)
    ensures ListenerTally(cfg, Accepting) == Tally(tracked := 1)
  {
  }

  lemma PlusCommutes(a: Tally, b: Tally)
    ensures Plus(a, b) == Plus(b, a)
  {
  }

  lemma NewConnTally(cfg: Config, peer: Peer)
    ensures ConnTally(NewConn(cfg, peer)) == Tally(connections := 1, served := 1, opens := 1, tracked := 1)
  {
    hide Plus;
    var account := ReaderTally(NewConn(cfg, peer).reader);
    PlusZero(ZERO_TALLY);
    PlusZero(account);
  }

  lemma DatagramLoopConserves(cfg: Config, env: Env, t: DatagramListener, starved: nat, l: DatagramListenerStep)
    requires DatagramLoopNext(cfg, env, t, starved, l).Some?
    ensures Conserves(cfg, DatagramLoop(t, starved), DatagramLoopNext(cfg, env, t, starved, l).value)
  {
    hide Total, ConnTally, Conserves;
    var a := DatagramLoopNext(cfg, env, t, starved, l).value;
    if l.SpawnDatagram? {
      SpawnDatagramConserves(cfg, t.msg, starved);
    } else {
      hide Plus;
      ShiftedIsPlus(DatagramLoopTally(t, starved), a.delta, DatagramLoopTally(a.next.loop, a.next.starved));
      QuietConserves(cfg, DatagramLoop(t, starved), a.next, a.delta);
    }
  }

  lemma SpawnDatagramConserves(cfg: Config, msg: Message, starved: nat)
    ensures Conserves(cfg, DatagramLoop(DatagramGauged(msg), starved),
                      Acted(DatagramLoop(DatagramIdle, starved), [DatagramTask(NewHold(msg), false)],
                            Tally(tracked := 1)))
  {
    hide Total, ConnTally;
    TotalOne(cfg, DatagramTask(NewHold(msg), false));
  }

  // ------------------------------------------------------------------------ whole system

  lemma PlusZero(a: Tally)
    ensures Plus(a, ZERO_TALLY) == a == Plus(ZERO_TALLY, a)
  {
  }

  lemma PlusAssoc(a: Tally, b: Tally, c: Tally)
    ensures Plus(Plus(a, b), c) == Plus(a, Plus(b, c))
  {
  }

  lemma {:induction false} TotalAppend(cfg: Config, xs: seq<Task>, ys: seq<Task>)
    ensures Total(cfg, xs + ys) == Plus(Total(cfg, xs), Total(cfg, ys))
  {
    hide TaskTally, Plus;
    if ys == [] {
      assert xs + ys == xs;
      PlusZero(Total(cfg, xs));
    } else {
      var front, last := ys[..|ys| - 1], ys[|ys| - 1];
      assert (xs + ys)[..|xs + ys| - 1] == xs + front;
      TotalAppend(cfg, xs, front);
      PlusAssoc(Total(cfg, xs), Total(cfg, front), TaskTally(cfg, last));
    }
  }

  lemma TotalOne(cfg: Config, t: Task)
    ensures Total(cfg, [t]) == TaskTally(cfg, t)
  {
    hide TaskTally;
    assert [t][..0] == [];
  }

  lemma TotalNone(cfg: Config)
    ensures Total(cfg, []) == ZERO_TALLY
  {
  }

  /** A step changes the counters by exactly what it changes the positions. */
  predicate Conserves(cfg: Config, t: Task, a: Acted) {
    Plus(TaskTally(cfg, a.next), Total(cfg, a.spawned)) == Plus(TaskTally(cfg, t), a.delta)
  }

  lemma QuietConserves(cfg: Config, t: Task, next: Task, delta: Tally)
    requires TaskTally(cfg, next) == Plus(TaskTally(cfg, t), delta)
    ensures Conserves(cfg, t, Acted(next, [], delta))
  {
    hide TaskTally;
    TotalNone(cfg);
  }

  lemma DatagramConserves(cfg: Config, cancelled: bool, h: Hold, over: bool, l: HoldStep)
    requires HoldNext(Dropped, cancelled, h, l).Some? && h.stage != Counting(Delivered)
    ensures var held := HoldNext(Dropped, cancelled, h, l).value;
            Conserves(cfg, DatagramTask(h, over), Acted(DatagramTask(held.hold, over), [], held.delta))
  {
    hide HoldNext, HoldTally;
    HoldConserves(Dropped, cancelled, h, l);
    TotalNone(cfg);
  }

  lemma DatagramExitConserves(cfg: Config, h: Hold)
    ensures Conserves(cfg, DatagramTask(h, false), Acted(DatagramTask(h, true), [], Tally(tracked := -1)))
  {
    hide HoldTally;
    TotalNone(cfg);
  }

  /** A message is never on its way to be counted as a loss after an acceptance. */
  lemma NoLossAfterAcceptance(cfg: Config, cancelled: bool, issued: int, t: Task)
    requires TaskOk(cfg, cancelled, issued, t)
    ensures t.DatagramTask? ==> t.hold.stage != Counting(Delivered)
    ensures t.Serving? && t.conn.courier.Holding? ==> t.conn.courier.hold.stage != Counting(Delivered)
    ensures t.Serving? && t.conn.reader.HeaderParse? ==> t.conn.courier.NotStarted?
  {
    hide Order, HeadOfLine, GivesUp, Increasing;
  }

  lemma TaskConserves(cfg: Config, env: Env, t: Task, l: TaskStep)
    requires TaskOk(cfg, env.cancelled, env.shared.issued, t)
    requires TaskNext(cfg, env, t, l).Some? && l != ReaderDo(SendFailed)
    ensures Conserves(cfg, t, TaskNext(cfg, env, t, l).value)
  {
    hide Conserves, TaskOk, ConnTally, HoldTally, Plus;
    hide ListenerNext, DatagramLoopNext, ReaderNext, CourierNext, HoldNext;
    NoLossAfterAcceptance(cfg, env.cancelled, env.shared.issued, t);
    match l
    case ListenerDo(step) => ListenerConserves(cfg, env, t.listener, step);
    case DatagramLoopDo(step) => DatagramLoopConserves(cfg, env, t.loop, t.starved, step);
    case ReaderDo(step) =>
      ReaderConserves(cfg, env, t.conn, step);
      var m := ReaderNext(cfg, env, t.conn, step).value;
      QuietConserves(cfg, t, Serving(m.next), m.delta);
    case CourierDo(step) =>
      CourierConserves(env, t.conn, step);
      var m := CourierNext(env, t.conn, step).value;
      QuietConserves(cfg, t, Serving(m.next), m.delta);
    case DatagramDo(step) => DatagramConserves(cfg, env.cancelled, t.hold, t.over, step);
    case DatagramExit => DatagramExitConserves(cfg, t.hold);
  }

  /** Replacing one task and starting others changes the total by what they changed. */
  lemma TotalUpdate(cfg: Config, tasks: seq<Task>, i: nat, a: Acted)
    requires i < |tasks|
    requires Conserves(cfg, tasks[i], a)
    ensures Total(cfg, tasks[i := a.next] + a.spawned) == Plus(Total(cfg, tasks), a.delta)
  {
    hide TaskTally, Total;
    var before, after := tasks[..i], tasks[i + 1..];
    assert tasks == before + [tasks[i]] + after;
    assert tasks[i := a.next] == before + [a.next] + after;
    TotalOne(cfg, tasks[i]);
    TotalOne(cfg, a.next);
    TotalAppend(cfg, before, [tasks[i]]);
    TotalAppend(cfg, before + [tasks[i]], after);
    TotalAppend(cfg, before, [a.next]);
    TotalAppend(cfg, before + [a.next], after);
    TotalAppend(cfg, tasks[i := a.next], a.spawned);
  }

  /** What the positions imply of one task's account. */
  predicate Sane(t: Tally) {
    && 0 <= t.pending <= -t.credits
    && 0 <= t.served <= t.connections
    && 0 <= t.tracked
    && 0 <= t.issued
  }

  lemma {:induction false} HoldsSane(holds: seq<Hold>)
    ensures Sane(HoldsTally(holds))
  {
    if holds != [] {
      hide HoldTally, Plus;
      var n := |holds| - 1;
      HoldsSane(holds[..n]);
      HoldSane(holds[n]);
      SanePlus(HoldsTally(holds[..n]), HoldTally(holds[n]));
    }
  }

  lemma SanePlus(a: Tally, b: Tally)
    requires Sane(a) && Sane(b)
    ensures Sane(Plus(a, b))
  {
  }

  lemma HoldSane(h: Hold)
    ensures Sane(HoldTally(h))
  {
  }

  lemma ConnSane(c: Conn)
    ensures Sane(ConnTally(c))
  {
    var reader, queued := ReaderTally(c.reader), QueuedTally(|c.channel|);
    assert Sane(reader) && Sane(queued) && Sane(ZERO_TALLY);
    HoldsSane(c.settled);
    if c.courier.Holding? {
      HoldSane(c.courier.hold);
    }
    hide Sane, Plus, HoldTally, HoldsTally, ReaderTally, QueuedTally;
    SanePlus(reader, queued);
    SanePlus(CourierTally(c.courier), HoldsTally(c.settled));
    SanePlus(Plus(reader, queued), Plus(CourierTally(c.courier), HoldsTally(c.settled)));
  }

  lemma TaskSane(cfg: Config, t: Task)
    ensures Sane(TaskTally(cfg, t))
  {
    hide ConnTally, HoldTally;
    match t
    case Serving(c) => ConnSane(c);
    case DatagramTask(h, _) => HoldSane(h);
    case _ =>
  }

  lemma {:induction false} TotalSane(cfg: Config, tasks: seq<Task>)
    ensures Sane(Total(cfg, tasks))
    ensures Total(cfg, tasks).tracked == 0 ==> forall t | t in tasks :: TaskTally(cfg, t).tracked == 0
    ensures forall t | t in tasks :: -TaskTally(cfg, t).credits <= -Total(cfg, tasks).credits
  {
    if tasks != [] {
      hide TaskTally;
      var front, last := tasks[..|tasks| - 1], tasks[|tasks| - 1];
      TotalSane(cfg, front);
      TaskSane(cfg, last);
      assert tasks == front + [last];
    }
  }
}
