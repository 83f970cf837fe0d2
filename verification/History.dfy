/** What a run never takes back: the history of every task only grows. */
module History {
  import opened Bytes
  import opened Delivery
  import opened Safety

  /** `later` is `earlier` further on: what was read, decoded, offered to the workers
      and settled is still there, in the same order; who is gone or has crashed stays so. */
  predicate Grows(earlier: Task, later: Task) {
    match earlier
    case Listener(_) => later.Listener?
    case DatagramLoop(_, _) => later.DatagramLoop? && earlier.starved <= later.starved
    case DatagramTask(h, _) => later.DatagramTask? && later.hold.msg == h.msg && (h.stage.Done? ==> later.hold == h)
    case Serving(c) => later.Serving? && ConnGrows(c, later.conn)
  }

  predicate ConnGrows(c: Conn, d: Conn) {
    && c.ownPeer == d.ownPeer
    && c.received <= d.received
    && c.decoded <= d.decoded
    && c.offers <= d.offers
    && c.settled <= d.settled
    && (c.workersGone ==> d.workersGone)
    && (c.eof ==> d.eof && c.received == d.received)
    && (c.reader.Gone? ==> d.reader.Gone?) && (c.reader.Crashed? ==> d.reader.Crashed?)
    && (!c.courier.NotStarted? ==> !d.courier.NotStarted? && c.peer == d.peer)
  }

  /** Which positions of reader and delivery task can change the peer or add bytes. */
  predicate Steady(c: Conn) {
    && (c.reader.HeaderParse? || c.reader.HeaderRead? ==> c.courier.NotStarted? && !c.eof)
    && (c.reader.Reading? ==> !c.eof)
  }

  predicate AllSteady(tasks: seq<Task>) {
    forall i | 0 <= i < |tasks| :: tasks[i].Serving? ==> Steady(tasks[i].conn)
  }

  lemma HeaderGrows(c: Conn)
    requires Steady(c) && c.reader.HeaderParse?
    ensures Steady(HeaderNext(c)) && ConnGrows(c, HeaderNext(c))
  {
    hide Proxy.Parse;
  }

  lemma DecodeGrows(cfg: Config, c: Conn)
    requires Steady(c) && c.reader.Decoding?
    ensures Steady(DecodeNext(cfg, c)) && ConnGrows(c, DecodeNext(cfg, c))
  {
    hide Framing.DecodeTurn;
  }

  lemma InputGrows(cfg: Config, cancelled: bool, c: Conn, l: ReaderStep)
    requires Steady(c) && InputNext(cfg, cancelled, c, l).Some?
    ensures var d := InputNext(cfg, cancelled, c, l).value; Steady(d) && ConnGrows(c, d)
  {
    hide HeaderNext, DecodeNext;
    match l
    case ParseHeader => HeaderGrows(c);
    case Decode => DecodeGrows(cfg, c);
    case _ =>
  }

  lemma ReaderGrows(cfg: Config, env: Env, c: Conn, l: ReaderStep)
    requires Steady(c) && ReaderNext(cfg, env, c, l).Some?
    ensures var d := ReaderNext(cfg, env, c, l).value.next; Steady(d) && ConnGrows(c, d)
  {
    hide InputNext;
    match l
    case Acquire | AssignId | GaugeUp | Send | SendFailed =>
    case DropSender | Join | CloseConn | CountClosed | Exit | Unwind =>
    case _ => InputGrows(cfg, env.cancelled, c, l);
  }

  lemma CourierGrows(cfg: Config, env: Env, c: Conn, l: CourierStep)
    requires Steady(c) && CourierNext(env, c, l).Some?
    ensures var d := CourierNext(env, c, l).value.next; Steady(d) && ConnGrows(c, d)
  {
    hide HoldNext;
  }

  lemma HoldGrows(lost: Outcome, cancelled: bool, h: Hold, l: HoldStep)
    requires HoldNext(lost, cancelled, h, l).Some?
    ensures !h.stage.Done? && HoldNext(lost, cancelled, h, l).value.hold.msg == h.msg
  {
  }

  lemma TaskGrows(cfg: Config, env: Env, t: Task, l: TaskStep)
    requires TaskNext(cfg, env, t, l).Some? && (t.Serving? ==> Steady(t.conn))
    ensures var a := TaskNext(cfg, env, t, l).value;
            && Grows(t, a.next) && (a.next.Serving? ==> Steady(a.next.conn))
            && forall i | 0 <= i < |a.spawned| :: a.spawned[i].Serving? ==> Steady(a.spawned[i].conn)
  {
    hide HoldNext, ReaderNext, CourierNext, ConnGrows;
    match l
    case ReaderDo(step) => ReaderGrows(cfg, env, t.conn, step);
    case CourierDo(step) => CourierGrows(cfg, env, t.conn, step);
    case DatagramDo(step) => HoldGrows(Dropped, env.cancelled, t.hold, step);
    case _ =>
  }

  lemma ConnGrowsOn(a: Conn, b: Conn, c: Conn)
    requires ConnGrows(a, b) && ConnGrows(b, c)
    ensures ConnGrows(a, c)
  {
  }

  lemma GrowsOn(a: Task, b: Task, c: Task)
    requires Grows(a, b) && Grows(b, c)
    ensures Grows(a, c)
  {
    hide ConnGrows;
    if a.Serving? {
      ConnGrowsOn(a.conn, b.conn, c.conn);
    }
  }

  predicate TasksGrow(earlier: seq<Task>, later: seq<Task>) {
    |earlier| <= |later| && forall i | 0 <= i < |earlier| :: Grows(earlier[i], later[i])
  }

  lemma StepGrows(cfg: Config, s: System, step: Step)
    requires AllSteady(s.tasks) && Next(cfg, s, step).Some?
    ensures var next := Next(cfg, s, step).value; AllSteady(next.tasks) && TasksGrow(s.tasks, next.tasks)
  {
    hide TaskNext, Steady, ConnGrows;
    forall t: Task ensures Grows(t, t) { GrowsSelf(t); }
    if step.At? {
      TaskGrows(cfg, Env(s.cancelled, s.shared), s.tasks[step.i], step.l);
    }
  }

  lemma GrowsSelf(t: Task)
    ensures Grows(t, t)
  {
  }

  lemma {:induction false} RunGrows(cfg: Config, s: System, run: seq<Step>)
    requires AllSteady(s.tasks) && Execute(cfg, s, run).Some?
    ensures var later := Execute(cfg, s, run).value; AllSteady(later.tasks) && TasksGrow(s.tasks, later.tasks)
    decreases |run|
  {
    hide Next, Steady, Grows;
    if run == [] {
      forall t: Task ensures Grows(t, t) { GrowsSelf(t); }
    } else {
      var before := run[..|run| - 1];
      RunGrows(cfg, s, before);
      var mid := Execute(cfg, s, before).value;
      StepGrows(cfg, mid, run[|run| - 1]);
      var later := Execute(cfg, s, run).value;
      forall i | 0 <= i < |s.tasks| ensures Grows(s.tasks[i], later.tasks[i]) {
        GrowsOn(s.tasks[i], mid.tasks[i], later.tasks[i]);
      }
    }
  }

  // ------------------------------------------------------------------- joining runs

  lemma {:induction false} ExecuteAppend(cfg: Config, s: System, one: seq<Step>, two: seq<Step>)
    requires Execute(cfg, s, one).Some?
    ensures Execute(cfg, s, one + two) == Execute(cfg, Execute(cfg, s, one).value, two)
    decreases |two|
  {
    hide Next;
    if two == [] {
      assert one + two == one;
    } else {
      var n := |two| - 1;
      assert (one + two)[..|one + two| - 1] == one + two[..n];
      ExecuteAppend(cfg, s, one, two[..n]);
    }
  }

  lemma ReachableSteady(cfg: Config, s: System)
    requires Reachable(cfg, s)
    ensures AllSteady(s.tasks)
  {
    hide Execute;
    var streams: nat, datagrams: bool, run: seq<Step> :|
      Execute(cfg, Initial(cfg, streams, datagrams), run) == Some(s);
    RunGrows(cfg, Initial(cfg, streams, datagrams), run);
  }

  lemma ReachableOn(cfg: Config, s: System, run: seq<Step>)
    requires Reachable(cfg, s) && Execute(cfg, s, run).Some?
    ensures Reachable(cfg, Execute(cfg, s, run).value)
  {
    hide Execute;
    var streams: nat, datagrams: bool, first: seq<Step> :|
      Execute(cfg, Initial(cfg, streams, datagrams), first) == Some(s);
    ExecuteAppend(cfg, Initial(cfg, streams, datagrams), first, run);
  }

  /** Nothing settled is reopened, nothing decoded, read or offered is forgotten: from
      every reachable state and along every run the histories only grow. */
  lemma HistoryGrows(cfg: Config, s: System, run: seq<Step>)
    requires Reachable(cfg, s) && Execute(cfg, s, run).Some?
    ensures TasksGrow(s.tasks, Execute(cfg, s, run).value.tasks)
  {
    hide Execute, Reachable;
    ReachableSteady(cfg, s);
    RunGrows(cfg, s, run);
  }
}
