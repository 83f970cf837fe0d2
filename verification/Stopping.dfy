/** What shutdown stops: nobody stops listening before it, and a message that is turned
    away after it has begun is not tried again. */
module Stopping {
  import opened Bytes
  import opened Delivery
  import opened Protocol
  import opened Safety
  import Guarantees
  import Journal

  /** Accept loops and the datagram loop go on until shutdown. */
  lemma ListensUntilShutdown(cfg: Config, s: System, i: nat)
    requires Reachable(cfg, s) && i < |s.tasks| && !s.cancelled
    ensures s.tasks[i] != Listener(Stopped) && !(s.tasks[i].DatagramLoop? && s.tasks[i].loop.DatagramStopped?)
  {
    hide Reachable;
    Guarantees.TaskAt(cfg, s, i);
  }

  /** Turned away, or on the way out for shutdown. */
  predicate Doomed(h: Hold) {
    h.stage.TurnedDown? || LeavesAs(h.stage) == Some(Abandoned(Shutdown))
  }

  lemma HoldDoomed(h: Hold, l: HoldStep)
    requires Doomed(h) && HoldNext(Abandoned(WorkersLost), true, h, l).Some?
    ensures var next := HoldNext(Abandoned(WorkersLost), true, h, l).value.hold;
            Doomed(next) && next.offered == h.offered && next.msg == h.msg
  {
  }

  /** The connection's `j`-th message is doomed after `n` offers. */
  predicate DoomedAt(t: Task, j: nat, n: nat) {
    && t.Serving? && j < |Guarantees.Taken(t.conn)|
    && var h := Guarantees.Taken(t.conn)[j]; Doomed(h) && h.offered == n
  }

  lemma CourierDoomed(cfg: Config, cancelled: bool, issued: int, env: Env, c: Conn, l: CourierStep, j: nat, n: nat)
    requires ConnOk(cfg, cancelled, issued, c) && env.cancelled && CourierNext(env, c, l).Some?
    requires DoomedAt(Serving(c), j, n)
    ensures DoomedAt(Serving(CourierNext(env, c, l).value.next), j, n)
  {
    hide HoldNext, Doomed, Shape, Order, HeadOfLine, GivesUp, HoldOk;
    if l.Attend? {
      var h := c.courier.hold;
      if j == |c.settled| {
        HoldDoomed(h, l.l);
      }
    }
  }

  lemma StepDoomed(cfg: Config, s: System, step: Step, i: nat, j: nat, n: nat)
    requires Inv(cfg, s) && s.cancelled && Next(cfg, s, step).Some? && i < |s.tasks| && DoomedAt(s.tasks[i], j, n)
    ensures var next := Next(cfg, s, step).value;
            next.cancelled && i < |next.tasks| && DoomedAt(next.tasks[i], j, n)
  {
    hide Inv, ReaderNext, CourierNext, ConnOk, Shape, TaskOk, Doomed;
    if step.At? && step.i == i {
      var env, c := Env(s.cancelled, s.shared), s.tasks[i].conn;
      Journal.TaskOf(cfg, s, i);
      Journal.ConnOf(cfg, s.cancelled, s.shared.issued, s.tasks[i]);
      match step.l
      case ReaderDo(l) => Journal.ReaderReads(cfg, env, c, l);
      case CourierDo(l) => CourierDoomed(cfg, s.cancelled, s.shared.issued, env, c, l, j, n);
      case _ =>
    }
  }

  lemma {:induction false} RunDoomed(cfg: Config, s: System, run: seq<Step>, i: nat, j: nat, n: nat)
    requires Inv(cfg, s) && s.cancelled && Execute(cfg, s, run).Some? && i < |s.tasks| && DoomedAt(s.tasks[i], j, n)
    ensures var later := Execute(cfg, s, run).value;
            later.cancelled && i < |later.tasks| && DoomedAt(later.tasks[i], j, n)
    decreases |run|
  {
    hide Inv, Next, DoomedAt;
    if run != [] {
      var before := run[..|run| - 1];
      RunDoomed(cfg, s, before, i, j, n);
      RunInv(cfg, s, before);
      StepDoomed(cfg, Execute(cfg, s, before).value, run[|run| - 1], i, j, n);
    }
  }

  /** Once shutdown has begun, a message that has been turned away is never offered to
      the workers again, along any run, and if it is ever settled it is abandoned. */
  lemma NotTriedAgain(cfg: Config, s: System, run: seq<Step>, i: nat)
    requires Reachable(cfg, s) && s.cancelled && Execute(cfg, s, run).Some?
    requires i < |s.tasks| && s.tasks[i].Serving? && s.tasks[i].conn.courier.Holding?
    requires s.tasks[i].conn.courier.hold.stage.TurnedDown?
    ensures var later := Execute(cfg, s, run).value; var c := s.tasks[i].conn; var j := |c.settled|;
            && i < |later.tasks| && later.tasks[i].Serving? && j < |Guarantees.Taken(later.tasks[i].conn)|
            && var h := Guarantees.Taken(later.tasks[i].conn)[j];
               && h.offered == c.courier.hold.offered
               && (h.stage.Done? ==> h.stage.outcome == Abandoned(Shutdown))
  {
    hide Reachable, Inv, Execute;
    ReachableInv(cfg, s);
    var c := s.tasks[i].conn;
    RunDoomed(cfg, s, run, i, |c.settled|, c.courier.hold.offered);
  }
}
