/** Drain finishes: once shutdown has begun, and as long as nobody sends more, the
    tasks run out of steps only when the tracker is empty, and they do run out. */
module Draining {
  import opened Bytes
  import opened Framing
  import opened Delivery
  import opened Protocol
  import opened Conservation
  import opened Safety
  import opened History

  /** Steps that do not wait for room on the worker queue and bring no new input. */
  predicate Productive(l: TaskStep) {
    match l
    case ListenerDo(step) => !step.Accept?
    case DatagramLoopDo(step) => !step.Receive?
    case ReaderDo(step) => !step.Data? && !step.HeaderData?
    case CourierDo(Attend(step)) => !step.QueueFull?
    case CourierDo(_) => true
    case DatagramDo(step) => !step.QueueFull?
    case DatagramExit => true
  }

  // --------------------------------------------------------------------------- the rank

  function HoldRank(h: Hold): nat {
    match h.stage
    case Sleeping => 9
    case Ready => 8
    case Offering => 7
    case Awaiting => 6
    case Answered(_) => 5
    case TurnedDown => 4
    case Counting(_) => 3
    case Releasing(_) => 2
    case Freeing(_) => 1
    case Done(_) => 0
  }

  function CourierRank(k: Courier): nat {
    match k
    case Holding(h) => 2 + HoldRank(h)
    case Receiving => 1
    case _ => 0
  }

  /** What the buffer can still give rise to. */
  function Potential(framer: FramerState, buffer: bytes, eof: bool): nat {
    30 * |buffer| + (if framer.line.skipping then 0 else 10) + (if eof then 0 else 4)
  }

  function ReaderRank(r: Reader, potential: nat): nat {
    match r
    case WantCredit(_) => 24 + potential
    case HaveCredit(_) => 23 + potential
    case HaveId(_) => 22 + potential
    case Sending(_) => 21 + potential
    case HeaderParse => 12 + potential
    case Decoding => 8 + potential
    case HeaderRead => 7
    case Reading => 6 + potential
    case Leaving => 5
    case Joining => 4
    case Closing => 3
    case CountingClosed => 2
    case Ending => 1
    case Unwinding => 1
    case Gone => 0
    case Crashed => 0
  }

  function ConnRank(c: Conn): nat {
    ReaderRank(c.reader, Potential(c.framer, c.buffer, c.eof)) + 12 * |c.channel| + CourierRank(c.courier)
  }

  function Rank(t: Task): nat {
    match t
    case Listener(Added(_, _)) => 33
    case Listener(Admitted(_)) => 31
    case Listener(Opened(_)) => 30
    case Listener(Undoing) => 2
    case Listener(Accepting) => 1
    case Listener(Stopped) => 0
    case DatagramLoop(DatagramCredited(_, _), _) => 14
    case DatagramLoop(DatagramNamed(_), _) => 13
    case DatagramLoop(DatagramGauged(_), _) => 12
    case DatagramLoop(DatagramIdle, _) => 1
    case DatagramLoop(DatagramStopped, _) => 0
    case Serving(c) => ConnRank(c)
    case DatagramTask(h, over) => HoldRank(h) + if over then 0 else 1
  }

  function TotalRank(tasks: seq<Task>): nat {
    if tasks == [] then 0 else TotalRank(tasks[..|tasks| - 1]) + Rank(tasks[|tasks| - 1])
  }

  // ---------------------------------------------------------------- steps lower the rank

  lemma HoldRankDrops(lost: Outcome, h: Hold, l: HoldStep)
    requires HoldNext(lost, true, h, l).Some? && !l.QueueFull?
    ensures HoldRank(HoldNext(lost, true, h, l).value.hold) < HoldRank(h)
  {
  }

  /** A message costs the buffer a byte; a skipped line costs a byte or the flag. */
  lemma TurnPotential(max: nat, eof: bool, state: FramerState, src: bytes)
    ensures var turn := DecodeTurn(max, eof, state, src);
            var before, after := Potential(state, src, eof), Potential(turn.state, turn.rest, eof);
            && (turn.out.More? ==> after <= before)
            && (turn.out.Frame? ==> after + 20 <= before)
            && (turn.out.Rejected? && !turn.out.error.fatal ==> after < before)
  {
    var turn := DecodeTurn(max, eof, state, src);
    if turn.out.More? && state.line.skipping && !turn.state.line.skipping {
      SkipEnds(max, eof, state, src);
    }
    hide OctetTurn, LineTurn;
  }

  lemma SkipEnds(max: nat, eof: bool, state: FramerState, src: bytes)
    requires state.line.skipping && !DecodeTurn(max, eof, state, src).state.line.skipping
    ensures |DecodeTurn(max, eof, state, src).rest| < |src|
  {
    hide ValidUtf8;
  }

  lemma DecodeRankDrops(cfg: Config, c: Conn)
    requires c.reader.Decoding?
    ensures ConnRank(DecodeNext(cfg, c)) < ConnRank(c)
  {
    hide DecodeTurn, Potential;
    TurnPotential(cfg.maxFrame, c.eof, c.framer, c.buffer);
  }

  lemma HeaderRankDrops(c: Conn)
    requires c.reader.HeaderParse? && c.courier.NotStarted?
    ensures ConnRank(HeaderNext(c)) < ConnRank(c)
  {
    hide Proxy.Parse;
  }

  lemma ReaderRankDrops(cfg: Config, env: Env, c: Conn, l: ReaderStep)
    requires Shape(cfg, c) && ReaderNext(cfg, env, c, l).Some?
    requires !l.Data? && !l.HeaderData? && (c.reader.Reading? ==> !c.eof)
    ensures ConnRank(ReaderNext(cfg, env, c, l).value.next) < ConnRank(c)
  {
    hide DecodeNext, HeaderNext, CourierRank;
    match l
    case Decode => DecodeRankDrops(cfg, c);
    case ParseHeader => HeaderRankDrops(c);
    case _ =>
  }

  lemma CourierRankDrops(env: Env, c: Conn, l: CourierStep)
    requires env.cancelled && CourierNext(env, c, l).Some? && (l.Attend? ==> !l.l.QueueFull?)
    ensures ConnRank(CourierNext(env, c, l).value.next) < ConnRank(c)
  {
    hide HoldNext, ReaderRank;
    if l.Attend? {
      HoldRankDrops(Abandoned(WorkersLost), c.courier.hold, l.l);
    }
  }

  lemma SpawnRank(cfg: Config, peer: Peer)
    ensures ConnRank(NewConn(cfg, peer)) <= 26
  {
  }

  function SpawnedRank(spawned: seq<Task>): nat {
    if spawned == [] then 0 else Rank(spawned[0])
  }

  lemma TaskRankDrops(cfg: Config, env: Env, t: Task, l: TaskStep)
    requires env.cancelled && TaskNext(cfg, env, t, l).Some? && Productive(l)
    requires t.Serving? ==> Shape(cfg, t.conn) && (t.conn.reader.Reading? ==> !t.conn.eof)
    ensures var a := TaskNext(cfg, env, t, l).value;
            |a.spawned| <= 1 && Rank(a.next) + SpawnedRank(a.spawned) < Rank(t)
  {
    hide HoldNext, ReaderNext, CourierNext, NewConn, ConnRank, Shape;
    match l
    case ReaderDo(step) => ReaderRankDrops(cfg, env, t.conn, step);
    case CourierDo(step) => CourierRankDrops(env, t.conn, step);
    case DatagramDo(step) => HoldRankDrops(Dropped, t.hold, step);
    case ListenerDo(step) =>
      if step.SpawnStream? {
        SpawnRank(cfg, t.listener.peer);
      }
    case _ =>
  }

  lemma {:induction false} TotalRankAppend(xs: seq<Task>, ys: seq<Task>)
    ensures TotalRank(xs + ys) == TotalRank(xs) + TotalRank(ys)
  {
    if ys == [] {
      assert xs + ys == xs;
    } else {
      var front := ys[..|ys| - 1];
      assert (xs + ys)[..|xs + ys| - 1] == xs + front;
      TotalRankAppend(xs, front);
    }
  }

  lemma RankOne(t: Task)
    ensures TotalRank([t]) == Rank(t)
  {
    assert [t][..0] == [];
  }

  lemma TotalRankUpdate(tasks: seq<Task>, i: nat, a: Acted)
    requires i < |tasks| && |a.spawned| <= 1
    ensures TotalRank(tasks[i := a.next] + a.spawned)
            == TotalRank(tasks) - Rank(tasks[i]) + Rank(a.next) + SpawnedRank(a.spawned)
  {
    hide Rank, TotalRank;
    var before, after := tasks[..i], tasks[i + 1..];
    assert tasks == before + [tasks[i]] + after;
    assert tasks[i := a.next] == before + [a.next] + after;
    RankOne(tasks[i]);
    RankOne(a.next);
    TotalRankAppend(before, [tasks[i]]);
    TotalRankAppend(before + [tasks[i]], after);
    TotalRankAppend(before, [a.next]);
    TotalRankAppend(before + [a.next], after);
    TotalRankAppend(tasks[i := a.next], a.spawned);
    if a.spawned == [] {
      NoRank();
    } else {
      RankOne(a.spawned[0]);
      assert a.spawned == [a.spawned[0]];
    }
  }

  lemma NoRank()
    ensures TotalRank([]) == 0
  {
  }

  /** A sound state with shutdown under way. */
  predicate ShuttingDown(cfg: Config, s: System) {
    Inv(cfg, s) && AllSteady(s.tasks) && s.cancelled
  }

  lemma ShapeOf(cfg: Config, s: System, i: nat)
    requires Inv(cfg, s) && i < |s.tasks|
    ensures TaskOk(cfg, s.cancelled, s.shared.issued, s.tasks[i])
    ensures s.tasks[i].Serving? ==> Shape(cfg, s.tasks[i].conn)
  {
    hide Accounted, Distinct, Covered, Bounded, Increasing, Order, HeadOfLine, HoldsOk, GivesUp, HoldOk;
  }

  lemma StepRankDrops(cfg: Config, s: System, i: nat, l: TaskStep)
    requires ShuttingDown(cfg, s) && Next(cfg, s, At(i, l)).Some? && Productive(l)
    ensures var next := Next(cfg, s, At(i, l)).value;
            ShuttingDown(cfg, next) && TotalRank(next.tasks) < TotalRank(s.tasks)
  {
    hide Inv, TaskNext, Rank, TotalRank, Productive, Shape, TaskOk;
    StepInv(cfg, s, At(i, l));
    StepGrows(cfg, s, At(i, l));
    ShapeOf(cfg, s, i);
    var env := Env(s.cancelled, s.shared);
    TaskRankDrops(cfg, env, s.tasks[i], l);
    TotalRankUpdate(s.tasks, i, TaskNext(cfg, env, s.tasks[i], l).value);
  }

  // ------------------------------------------------------------------- nobody gets stuck

  predicate Enabled(cfg: Config, env: Env, t: Task, l: TaskStep) {
    Productive(l) && TaskNext(cfg, env, t, l).Some?
  }

  lemma HoldMoves(lost: Outcome, cancelled: bool, h: Hold) returns (l: HoldStep)
    requires !h.stage.Done?
    ensures !l.QueueFull? && HoldNext(lost, cancelled, h, l).Some?
  {
    match h.stage
    case Ready => l := Begin;
    case Offering => l := Sent;
    case Awaiting => l := AnswerLost;
    case Answered(_) => l := CountVerdict;
    case TurnedDown => l := CheckToken;
    case Sleeping => l := Wake;
    case Counting(_) => l := CountOutcome;
    case Releasing(_) => l := Release;
    case Freeing(_) => l := Free;
  }

  /** The delivery task of a connection with something in hand or in line moves. */
  lemma CourierMoves(cfg: Config, env: Env, c: Conn) returns (l: TaskStep)
    requires c.courier.Holding? ==> !c.courier.hold.stage.Done?
    requires c.courier.Holding? || (c.courier.Receiving? && (c.channel != [] || !SenderOpen(c)))
    ensures Enabled(cfg, env, Serving(c), l)
  {
    hide HoldNext;
    if c.courier.Holding? {
      var step := HoldMoves(Abandoned(WorkersLost), env.cancelled, c.courier.hold);
      l := CourierDo(Attend(step));
    } else if c.channel != [] {
      l := CourierDo(Recv);
    } else {
      l := CourierDo(RecvClosed);
    }
  }

  /** A connection that is not gone moves, or is waiting for a credit. */
  lemma ConnMoves(cfg: Config, env: Env, c: Conn) returns (l: TaskStep)
    requires Shape(cfg, c) && cfg.perConnection >= 1 && env.cancelled
    requires c.courier.Holding? ==> !c.courier.hold.stage.Done?
    requires !c.reader.Gone? && (c.reader.Crashed? ==> c.channel != [] || c.courier.Holding?)
    ensures Enabled(cfg, env, Serving(c), l)
            || (c.reader.WantCredit? && env.shared.credits <= 0 && c.channel == [] && !c.courier.Holding?)
  {
    hide HeaderNext, DecodeNext, HoldNext;
    match c.reader
    case HeaderParse => l := ReaderDo(ParseHeader);
    case HeaderRead => l := ReaderDo(HeaderFail);
    case Decoding => l := ReaderDo(Decode);
    case Reading => l := ReaderDo(SeeCancel);
    case HaveCredit(_) => l := ReaderDo(AssignId);
    case HaveId(_) => l := ReaderDo(GaugeUp);
    case Leaving => l := ReaderDo(DropSender);
    case Closing => l := ReaderDo(CloseConn);
    case CountingClosed => l := ReaderDo(CountClosed);
    case Ending => l := ReaderDo(Exit);
    case Unwinding => l := ReaderDo(Unwind);
    case Crashed => l := CourierMoves(cfg, env, c);
    case WantCredit(_) =>
      if env.shared.credits > 0 {
        l := ReaderDo(Acquire);
      } else if c.channel != [] || c.courier.Holding? {
        l := CourierMoves(cfg, env, c);
      } else {
        l := ReaderDo(Acquire);
      }
    case Sending(_) =>
      if |c.channel| < cfg.perConnection {
        l := ReaderDo(Send);
      } else {
        l := CourierMoves(cfg, env, c);
      }
    case Joining =>
      if c.courier.Finished? {
        l := ReaderDo(Join);
      } else {
        l := CourierMoves(cfg, env, c);
      }
  }

  lemma ListenerMoves(cfg: Config, env: Env, t: StreamListener) returns (l: TaskStep)
    requires env.cancelled && !t.Stopped?
    ensures Enabled(cfg, env, Listener(t), l)
  {
    hide NewConn;
    l := ListenerDo(match t
                    case Accepting => StopListening
                    case Added(_, _) => CheckLimit
                    case Undoing => Undo
                    case Admitted(_) => CountOpened
                    case _ => SpawnStream);
  }

  lemma DatagramLoopMoves(cfg: Config, env: Env, t: DatagramListener, starved: nat) returns (l: TaskStep)
    requires env.cancelled && !t.DatagramStopped?
    ensures Enabled(cfg, env, DatagramLoop(t, starved), l)
  {
    l := DatagramLoopDo(match t
                        case DatagramCredited(_, _) => NameDatagram
                        case DatagramNamed(_) => GaugeDatagram
                        case DatagramGauged(_) => SpawnDatagram
                        case _ => StopReceiving);
  }

  lemma DatagramMoves(cfg: Config, env: Env, h: Hold, over: bool) returns (l: TaskStep)
    requires !over || !h.stage.Done?
    ensures Enabled(cfg, env, DatagramTask(h, over), l)
  {
    hide HoldNext;
    if h.stage.Done? {
      l := DatagramExit;
    } else {
      var step := HoldMoves(Dropped, env.cancelled, h);
      l := DatagramDo(step);
    }
  }

  /** A tracked task moves, or is a connection waiting for a credit that holds none. */
  lemma TaskMoves(cfg: Config, env: Env, issued: int, t: Task) returns (l: TaskStep)
    requires TaskOk(cfg, env.cancelled, issued, t) && cfg.perConnection >= 1 && env.cancelled
    requires TaskTally(cfg, t).tracked != 0 || TaskTally(cfg, t).credits < 0
    ensures Enabled(cfg, env, t, l) || (env.shared.credits <= 0 && TaskTally(cfg, t).credits == 0)
  {
    hide HoldOk, Increasing, Enabled, ConnOk, ConnTally, Shape;
    match t
    case Listener(listener) => l := ListenerMoves(cfg, env, listener);
    case DatagramLoop(loop, starved) => l := DatagramLoopMoves(cfg, env, loop, starved);
    case DatagramTask(h, over) => l := DatagramMoves(cfg, env, h, over);
    case Serving(c) =>
      NotGone(cfg, env.cancelled, issued, c);
      l := ConnMoves(cfg, env, c);
  }

  lemma NotGone(cfg: Config, cancelled: bool, issued: int, c: Conn)
    requires ConnOk(cfg, cancelled, issued, c)
    ensures Shape(cfg, c)
    ensures c.courier.Holding? ==> !c.courier.hold.stage.Done?
    ensures c.reader.Gone? || (c.reader.Crashed? && c.channel == [] && !c.courier.Holding?) ==>
              ConnTally(c).tracked == 0 && ConnTally(c).credits == 0
    ensures c.reader.WantCredit? && c.channel == [] && !c.courier.Holding? ==> ConnTally(c).credits == 0
  {
    hide Order, HeadOfLine, GivesUp, HoldOk, HoldsTally, HoldTally, ConnTally;
    SettledFree(c.settled);
    ConnParts(c);
  }

  lemma ConnParts(c: Conn)
    ensures ConnTally(c).credits
            == ReaderTally(c.reader).credits - |c.channel| + CourierTally(c.courier).credits
               + HoldsTally(c.settled).credits
    ensures ConnTally(c).tracked
            == ReaderTally(c.reader).tracked + CourierTally(c.courier).tracked + HoldsTally(c.settled).tracked
  {
    hide ReaderTally, CourierTally, HoldsTally;
  }

  lemma {:induction false} SettledFree(holds: seq<Hold>)
    requires forall h | h in holds :: h.stage.Done?
    ensures HoldsTally(holds).credits == HoldsTally(holds).tracked == 0
  {
    if holds != [] {
      var n := |holds| - 1;
      assert holds[n] in holds;
      SettledFree(holds[..n]);
    }
  }

  lemma {:induction false} SomeTracked(cfg: Config, tasks: seq<Task>) returns (i: nat)
    requires Total(cfg, tasks).tracked != 0
    ensures i < |tasks| && TaskTally(cfg, tasks[i]).tracked != 0
  {
    hide TaskTally;
    var n := |tasks| - 1;
    if TaskTally(cfg, tasks[n]).tracked != 0 {
      i := n;
    } else {
      i := SomeTracked(cfg, tasks[..n]);
    }
  }

  lemma {:induction false} SomeHolder(cfg: Config, tasks: seq<Task>) returns (i: nat)
    requires Total(cfg, tasks).credits < 0
    ensures i < |tasks| && TaskTally(cfg, tasks[i]).credits < 0
  {
    hide TaskTally;
    var n := |tasks| - 1;
    if TaskTally(cfg, tasks[n]).credits < 0 {
      i := n;
    } else {
      i := SomeHolder(cfg, tasks[..n]);
    }
  }

  /** Nobody gets stuck: while a task is tracked, some task has a productive step. If
      all that is left is waiting for credits, whoever holds one can move. */
  lemma NeverStuck(cfg: Config, s: System) returns (i: nat, l: TaskStep)
    requires ShuttingDown(cfg, s) && s.shared.tracked != 0
    requires cfg.maxPending >= 1 && cfg.perConnection >= 1
    ensures Productive(l) && Next(cfg, s, At(i, l)).Some?
  {
    hide Total, TaskTally, TaskNext, TaskOk, Distinct, Covered, Productive, Shape, AllSteady;
    var env := Env(s.cancelled, s.shared);
    i := SomeTracked(cfg, s.tasks);
    l := TaskMoves(cfg, env, s.shared.issued, s.tasks[i]);
    if !Enabled(cfg, env, s.tasks[i], l) {
      i := SomeHolder(cfg, s.tasks);
      l := TaskMoves(cfg, env, s.shared.issued, s.tasks[i]);
    }
  }

  // ---------------------------------------------------------------------- drain finishes

  predicate AllProductive(run: seq<Step>) {
    forall k | 0 <= k < |run| :: run[k].At? && Productive(run[k].l)
  }

  /** Every run of productive steps is bounded by the rank it starts from. */
  lemma {:induction false} RunBounded(cfg: Config, s: System, run: seq<Step>)
    requires ShuttingDown(cfg, s) && AllProductive(run) && Execute(cfg, s, run).Some?
    ensures var end := Execute(cfg, s, run).value;
            ShuttingDown(cfg, end) && |run| + TotalRank(end.tasks) <= TotalRank(s.tasks)
    decreases |run|
  {
    hide ShuttingDown, Next, Productive, TotalRank;
    if run != [] {
      var before, last := run[..|run| - 1], run[|run| - 1];
      RunBounded(cfg, s, before);
      StepRankDrops(cfg, Execute(cfg, s, before).value, last.i, last.l);
    }
  }

  lemma ExecuteOne(cfg: Config, s: System, step: Step)
    ensures Execute(cfg, s, [step]) == Next(cfg, s, step)
  {
    hide Next;
    assert [step][..0] == [];
    assert Execute(cfg, s, []) == Some(s);
  }

  lemma {:induction false} Finish(cfg: Config, s: System) returns (run: seq<Step>)
    requires ShuttingDown(cfg, s) && cfg.maxPending >= 1 && cfg.perConnection >= 1
    ensures AllProductive(run) && Execute(cfg, s, run).Some?
    ensures Execute(cfg, s, run).value.shared.tracked == 0
    decreases TotalRank(s.tasks)
  {
    hide ShuttingDown, Next, Productive, TotalRank;
    if s.shared.tracked == 0 {
      run := [];
    } else {
      var i, l := NeverStuck(cfg, s);
      StepRankDrops(cfg, s, i, l);
      var later := Finish(cfg, Next(cfg, s, At(i, l)).value);
      ExecuteOne(cfg, s, At(i, l));
      ExecuteAppend(cfg, s, [At(i, l)], later);
      run := [At(i, l)] + later;
    }
  }

  lemma ReachableShuttingDown(cfg: Config, s: System)
    requires Reachable(cfg, s) && s.cancelled
    ensures ShuttingDown(cfg, s)
  {
    hide Inv, Execute;
    ReachableInv(cfg, s);
    ReachableSteady(cfg, s);
  }

  /** Drain finishes. After shutdown has begun, with no new input: no run of productive
      steps is longer than the rank of the state it starts in; one that can go no
      further has emptied the tracker; and from every reachable state there is one that
      does. */
  lemma DrainFinishes(cfg: Config, s: System, run: seq<Step>)
    requires Reachable(cfg, s) && s.cancelled && cfg.maxPending >= 1 && cfg.perConnection >= 1
    requires AllProductive(run) && Execute(cfg, s, run).Some?
    ensures |run| <= TotalRank(s.tasks)
    ensures var end := Execute(cfg, s, run).value;
            (forall i: nat, l: TaskStep | Productive(l) :: Next(cfg, end, At(i, l)).None?) ==> end.shared.tracked == 0
    ensures exists whole: seq<Step> ::
              AllProductive(whole) && Execute(cfg, s, whole).Some? && Execute(cfg, s, whole).value.shared.tracked == 0
  {
    hide Reachable, Next, Productive, TotalRank, Execute, ShuttingDown;
    ReachableShuttingDown(cfg, s);
    RunBounded(cfg, s, run);
    var end := Execute(cfg, s, run).value;
    if end.shared.tracked != 0 {
      var i, l := NeverStuck(cfg, end);
    }
    var whole := Finish(cfg, s);
  }
}
