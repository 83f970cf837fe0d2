/** No deadlock on credits: in every reachable state, whether or not shutdown has begun,
    a credit is free or a few steps away, and those steps need no input, no further
    credit and nobody but the task that holds one. */
module Credits {
  import opened Bytes
  import opened Delivery
  import opened Protocol
  import opened Conservation
  import opened Safety
  import opened History
  import opened Draining

  /** A task with a permit in its hands, in its channel or with a held message. */
  predicate HoldsPermit(t: Task) {
    match t
    case Listener(_) => false
    case DatagramLoop(loop, _) => loop.DatagramCredited? || loop.DatagramNamed? || loop.DatagramGauged?
    case Serving(c) =>
      || c.reader.HaveCredit? || c.reader.HaveId? || c.reader.Sending?
      || c.channel != [] || c.courier.Holding?
    case DatagramTask(h, _) => !h.stage.Done?
  }

  /** A connection whose reader waits for a credit. */
  predicate WaitsForPermit(t: Task) {
    t.Serving? && t.conn.reader.WantCredit?
  }

  // -------------------------------------------------------- how far off the next credit is

  /** Steps before the one that frees the permit, if the next answer is acceptance. */
  function HoldDistance(h: Hold): nat {
    match h.stage
    case Answered(Accepted) => 2
    case Answered(_) => 8
    case TurnedDown => 7
    case Sleeping => 6
    case Ready => 5
    case Offering => 4
    case Awaiting => 3
    case Counting(_) => 2
    case Releasing(_) => 1
    case Freeing(_) => 0
    case Done(_) => 0
  }

  function ReaderDistance(r: Reader): nat {
    match r
    case HaveCredit(_) => 3
    case HaveId(_) => 2
    case Sending(_) => 1
    case _ => 0
  }

  function Distance(t: Task): (n: nat)
    ensures n <= 12
  {
    match t
    case Listener(_) => 0
    case DatagramLoop(DatagramCredited(_, _), _) => 8
    case DatagramLoop(DatagramNamed(_), _) => 7
    case DatagramLoop(_, _) => 6
    case Serving(c) => ReaderDistance(c.reader) + if c.courier.Holding? then HoldDistance(c.courier.hold) else 9
    case DatagramTask(h, _) => HoldDistance(h)
  }

  // -------------------------------------------------------------------- the holder can move

  lemma HoldCloses(lost: Outcome, cancelled: bool, h: Hold) returns (l: HoldStep)
    requires !h.stage.Done?
    ensures !l.QueueFull? && HoldNext(lost, cancelled, h, l).Some?
    ensures var held := HoldNext(lost, cancelled, h, l).value;
            if h.stage.Freeing? then held.delta.credits == 1
            else held.delta.credits == 0 && !held.hold.stage.Done? && HoldDistance(held.hold) < HoldDistance(h)
  {
    match h.stage
    case Ready => l := Begin;
    case Offering => l := Sent;
    case Awaiting => l := Answer(Accepted);
    case Answered(_) => l := CountVerdict;
    case TurnedDown => l := CheckToken;
    case Sleeping => l := Wake;
    case Counting(_) => l := CountOutcome;
    case Releasing(_) => l := Release;
    case Freeing(_) => l := Free;
  }

  /** One step of a permit's holder: it frees the permit, or the permit is closer to
      being freed, in the same task or the one it spawned. */
  predicate Closer(t: Task, a: Acted) {
    || a.delta.credits == 1
    || (a.delta.credits == 0 && HoldsPermit(a.next) && Distance(a.next) < Distance(t))
    || (a.delta.credits == 0 && |a.spawned| == 1 && HoldsPermit(a.spawned[0]) && Distance(a.spawned[0]) < Distance(t))
  }

  lemma ConnCloses(cfg: Config, env: Env, c: Conn) returns (l: TaskStep)
    requires Shape(cfg, c) && cfg.perConnection >= 1 && HoldsPermit(Serving(c))
    requires c.courier.Holding? ==> !c.courier.hold.stage.Done?
    ensures Enabled(cfg, env, Serving(c), l)
    ensures var a := TaskNext(cfg, env, Serving(c), l).value;
            Closer(Serving(c), a) && (c.reader.WantCredit? ==> WaitsForPermit(a.next))
  {
    if c.courier.Holding? {
      hide HoldNext, HoldDistance;
      var step := HoldCloses(Abandoned(WorkersLost), env.cancelled, c.courier.hold);
      l := CourierDo(Attend(step));
    } else if c.channel != [] {
      l := CourierDo(Recv);
    } else {
      l := ReaderDo(match c.reader
                    case HaveCredit(_) => AssignId
                    case HaveId(_) => GaugeUp
                    case _ => Send);
    }
  }

  lemma HolderCloses(cfg: Config, env: Env, issued: int, t: Task) returns (l: TaskStep)
    requires TaskOk(cfg, env.cancelled, issued, t) && cfg.perConnection >= 1 && HoldsPermit(t)
    ensures Enabled(cfg, env, t, l)
    ensures var a := TaskNext(cfg, env, t, l).value;
            Closer(t, a) && (WaitsForPermit(t) ==> WaitsForPermit(a.next))
  {
    match t
    case DatagramLoop(loop, _) =>
      l := DatagramLoopDo(match loop
                          case DatagramCredited(_, _) => NameDatagram
                          case DatagramNamed(_) => GaugeDatagram
                          case _ => SpawnDatagram);
    case DatagramTask(h, _) =>
      hide HoldNext, HoldDistance, HoldOk;
      var step := HoldCloses(Dropped, env.cancelled, h);
      l := DatagramDo(step);
    case Serving(c) =>
      hide Closer, TaskNext, Enabled, ConnOk, HoldsPermit;
      NotGone(cfg, env.cancelled, issued, c);
      l := ConnCloses(cfg, env, c);
  }

  /** A task whose position accounts for a missing credit holds a permit. */
  lemma OwesCredit(cfg: Config, cancelled: bool, issued: int, t: Task)
    requires TaskOk(cfg, cancelled, issued, t) && TaskTally(cfg, t).credits < 0
    ensures HoldsPermit(t)
  {
    hide HoldOk, Increasing, ConnOk, ConnTally;
    if t.Serving? {
      var c := t.conn;
      ConnParts(c);
      AllSettled(cfg, cancelled, issued, c);
      SettledFree(c.settled);
    }
  }

  lemma AllSettled(cfg: Config, cancelled: bool, issued: int, c: Conn)
    requires ConnOk(cfg, cancelled, issued, c)
    ensures forall h | h in c.settled :: h.stage.Done?
  {
    hide Shape, Order, HeadOfLine, GivesUp, HoldOk;
  }

  // ------------------------------------------------------------------------- the whole system

  /** Whoever waits for a credit in `s` still waits in `next`. */
  predicate StillWaiting(s: System, next: System) {
    |s.tasks| <= |next.tasks|
    && forall w | 0 <= w < |s.tasks| && WaitsForPermit(s.tasks[w]) :: WaitsForPermit(next.tasks[w])
  }

  lemma HolderStep(cfg: Config, s: System, i: nat) returns (l: TaskStep, j: nat)
    requires Inv(cfg, s) && cfg.perConnection >= 1 && i < |s.tasks| && HoldsPermit(s.tasks[i])
    ensures Productive(l) && Next(cfg, s, At(i, l)).Some?
    ensures var next := Next(cfg, s, At(i, l)).value;
            && Inv(cfg, next) && StillWaiting(s, next)
            && (next.shared.credits > 0
                || (j < |next.tasks| && HoldsPermit(next.tasks[j]) && Distance(next.tasks[j]) < Distance(s.tasks[i])))
  {
    hide Inv, TaskNext, HoldsPermit, WaitsForPermit, Distance, Productive, TaskOk;
    var env := Env(s.cancelled, s.shared);
    ShapeOf(cfg, s, i);
    CreditsThere(cfg, s);
    l := HolderCloses(cfg, env, s.shared.issued, s.tasks[i]);
    StepInv(cfg, s, At(i, l));
    var a := TaskNext(cfg, env, s.tasks[i], l).value;
    j := if HoldsPermit(a.next) && Distance(a.next) < Distance(s.tasks[i]) then i else |s.tasks|;
  }

  lemma CreditsThere(cfg: Config, s: System)
    requires Inv(cfg, s)
    ensures s.shared.credits >= 0
  {
    hide Accounted, AllOk, Distinct, Covered;
  }

  lemma {:induction false} HolderFrees(cfg: Config, s: System, i: nat) returns (run: seq<Step>)
    requires Inv(cfg, s) && cfg.perConnection >= 1 && i < |s.tasks| && HoldsPermit(s.tasks[i])
    ensures AllProductive(run) && |run| <= Distance(s.tasks[i]) + 1
    ensures Execute(cfg, s, run).Some?
    ensures var end := Execute(cfg, s, run).value;
            end.shared.credits > 0 && StillWaiting(s, end)
    decreases Distance(s.tasks[i])
  {
    hide Inv, Next, HoldsPermit, WaitsForPermit, Distance, Productive;
    var l, j := HolderStep(cfg, s, i);
    var next := Next(cfg, s, At(i, l)).value;
    ExecuteOne(cfg, s, At(i, l));
    if next.shared.credits > 0 {
      run := [At(i, l)];
    } else {
      var later := HolderFrees(cfg, next, j);
      ExecuteAppend(cfg, s, [At(i, l)], later);
      run := [At(i, l)] + later;
    }
  }

  lemma SomeoneHolds(cfg: Config, s: System) returns (i: nat)
    requires Inv(cfg, s) && s.shared.credits < cfg.maxPending
    ensures i < |s.tasks| && HoldsPermit(s.tasks[i])
  {
    hide Total, TaskTally, HoldsPermit, TaskOk, Distinct, Covered;
    i := SomeHolder(cfg, s.tasks);
    OwesCredit(cfg, s.cancelled, s.shared.issued, s.tasks[i]);
  }

  /** No deadlock on credits. In every reachable state, while a permit is out some task
      can move without new input; and at most 13 such steps leave a credit free, which
      every reader that waits for one can then take. */
  lemma NoCreditDeadlock(cfg: Config, s: System) returns (run: seq<Step>)
    requires Reachable(cfg, s) && cfg.maxPending >= 1 && cfg.perConnection >= 1
    ensures AllProductive(run) && |run| <= 13 && Execute(cfg, s, run).Some?
    ensures var end := Execute(cfg, s, run).value;
            && end.shared.credits > 0
            && forall w: nat | w < |s.tasks| && WaitsForPermit(s.tasks[w]) ::
                 Next(cfg, end, At(w, ReaderDo(Acquire))).Some?
    ensures s.shared.credits < cfg.maxPending ==>
              exists i: nat, l: TaskStep | Productive(l) :: Next(cfg, s, At(i, l)).Some?
  {
    hide Reachable, Inv, Execute, HoldsPermit, Distance, AllProductive;
    ReachableInv(cfg, s);
    CreditsThere(cfg, s);
    if s.shared.credits < cfg.maxPending {
      var i := SomeoneHolds(cfg, s);
      var l, j := HolderStep(cfg, s, i);
    }
    if s.shared.credits > 0 {
      run := [];
      NoSteps(cfg, s);
    } else {
      var i := SomeoneHolds(cfg, s);
      run := HolderFrees(cfg, s, i);
    }
  }

  lemma NoSteps(cfg: Config, s: System)
    ensures Execute(cfg, s, []) == Some(s) && AllProductive([])
  {
  }
}
