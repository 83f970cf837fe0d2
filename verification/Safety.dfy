/** What holds in every reachable state of the delivery system, under every
    interleaving of its tasks. */
module Safety {
  import opened Bytes
  import opened Delivery
  import opened Protocol
  import opened Conservation

  /** `s` is the result of some run of some server under this configuration. */
  ghost predicate Reachable(cfg: Config, s: System) {
    exists streams: nat, datagrams: bool, run: seq<Step> ::
      Execute(cfg, Initial(cfg, streams, datagrams), run) == Some(s)
  }

  // -------------------------------------------------------------------- the invariant

  /** The counters as the positions of all tasks account for them. */
  function Account(cfg: Config, s: System): Tally {
    Plus(Tally(credits := cfg.maxPending), Total(cfg, s.tasks))
  }

  /** What drain timeouts took from the gauge, added to the abandoned counter or not. */
  function SweptAway(s: System): int {
    s.swept + if s.sweeping.Some? then s.sweeping.value else 0
  }

  /** The counters are exactly the account. A drain timeout moves the gauge to the
      abandoned counter while its messages may still finish; from then on the gauge is
      below the account, by no more than was taken from it. */
  predicate Accounted(cfg: Config, s: System) {
    var account := Account(cfg, s);
    && s.shared.(pending := 0) == account.(pending := 0, abandoned := account.abandoned + s.swept)
    && 0 <= s.shared.pending <= account.pending <= s.shared.pending + SweptAway(s)
    && (!s.timedOut ==> s.swept == 0 && s.sweeping.None?)
  }

  predicate Distinct(tasks: seq<Task>) {
    forall i, j | 0 <= i < j < |tasks| :: Ids(tasks[i]) !! Ids(tasks[j])
  }

  /** Some task has the message with id `k`. */
  predicate Owned(tasks: seq<Task>, k: int) {
    exists i | 0 <= i < |tasks| :: k in Ids(tasks[i])
  }

  predicate Covered(tasks: seq<Task>, issued: int) {
    forall k | 1 <= k <= issued :: Owned(tasks, k)
  }

  predicate AllOk(cfg: Config, s: System) {
    forall i | 0 <= i < |s.tasks| :: TaskOk(cfg, s.cancelled, s.shared.issued, s.tasks[i])
  }

  predicate Bounded(cfg: Config, s: System) {
    && 0 <= s.shared.credits
    && s.shared.served <= cfg.maxConnections
    && (s.timedOut ==> s.cancelled)
  }

  predicate Inv(cfg: Config, s: System) {
    && Accounted(cfg, s)
    && AllOk(cfg, s)
    && Distinct(s.tasks)
    && Covered(s.tasks, s.shared.issued)
    && Bounded(cfg, s)
  }

  // --------------------------------------------------------------------- initial states

  lemma {:induction false} IdleTotal(cfg: Config, n: nat)
    ensures Total(cfg, seq(n, i => Listener(Accepting))) == Tally(tracked := n)
  {
    var idle := seq(n, i => Listener(Accepting));
    if n > 0 {
      hide Plus, TaskTally;
      IdleTotal(cfg, n - 1);
      assert idle[..n - 1] == seq(n - 1, i => Listener(Accepting));
      IdleTally(cfg);
      ShiftedIsPlus(Tally(tracked := n - 1), Tally(tracked := 1), Tally(tracked := n));
    }
  }

  lemma IdleTally(cfg: Config)
    ensures TaskTally(cfg, Listener(Accepting)) == Tally(tracked := 1)
  {
  }

  lemma InitialInv(cfg: Config, streams: nat, datagrams: bool)
    ensures Inv(cfg, Initial(cfg, streams, datagrams))
  {
    hide ConnOk, ConnTally, Total;
    var s := Initial(cfg, streams, datagrams);
    var idle := seq(streams, i => Listener(Accepting));
    IdleTotal(cfg, streams);
    if datagrams {
      var loop := DatagramLoop(DatagramIdle, 0);
      TotalOne(cfg, loop);
      TotalAppend(cfg, idle, [loop]);
    } else {
      assert s.tasks == idle;
    }
    assert forall i | 0 <= i < |s.tasks| :: TaskMsgs(s.tasks[i]) == [];
  }

  // ---------------------------------------------------------------------------- one step

  /** No step takes a credit that is not there or serves a connection over the limit. */
  lemma TaskGuards(cfg: Config, env: Env, t: Task, l: TaskStep)
    requires TaskNext(cfg, env, t, l).Some?
    ensures var delta := TaskNext(cfg, env, t, l).value.delta;
            && (delta.credits >= 0 || (delta.credits == -1 && env.shared.credits > 0))
            && (delta.served <= 0 || (delta.served == 1 && env.shared.connections < cfg.maxConnections))
            && -1 <= delta.pending
  {
    hide DecodeNext, HeaderNext;
  }

  lemma IdsStep(tasks: seq<Task>, i: nat, a: Acted, issued: int)
    requires i < |tasks| && Distinct(tasks) && Covered(tasks, issued)
    requires IdsMove(issued, tasks[i], a)
    requires forall j, k | 0 <= j < |tasks| && k in Ids(tasks[j]) :: k <= issued
    ensures Distinct(tasks[i := a.next] + a.spawned)
    ensures Covered(tasks[i := a.next] + a.spawned, issued + a.delta.issued)
  {
    hide Ids;
    var next := tasks[i := a.next] + a.spawned;
    forall k | 1 <= k <= issued + a.delta.issued ensures Owned(next, k) {
      if k in Ids(a.next) {
        assert next[i] == a.next;
      } else if k in SpawnedIds(a.spawned) {
        assert next[|tasks|] == a.spawned[0];
      } else {
        assert Owned(tasks, k);
        var j :| 0 <= j < |tasks| && k in Ids(tasks[j]);
        assert next[j] == tasks[j];
      }
    }
  }

  lemma OkIdsBounded(cfg: Config, cancelled: bool, issued: int, t: Task, k: int)
    requires TaskOk(cfg, cancelled, issued, t) && k in Ids(t)
    ensures k <= issued
  {
    hide ConnOk, HoldOk, TaskMsgs;
  }

  lemma AccountStep(cfg: Config, s: System, i: nat, a: Acted, next: System)
    requires i < |s.tasks| && Accounted(cfg, s) && Conserves(cfg, s.tasks[i], a) && -1 <= a.delta.pending
    requires next == s.(tasks := s.tasks[i := a.next] + a.spawned, shared := Post(s.shared, a.delta))
    ensures Accounted(cfg, next)
    ensures next.shared.(pending := 0) == Plus(s.shared, a.delta).(pending := 0)
  {
    hide Conserves, Total, TaskTally;
    TotalUpdate(cfg, s.tasks, i, a);
    TotalSane(cfg, next.tasks);
  }

  lemma OkStep(cfg: Config, s: System, i: nat, a: Acted, next: System)
    requires i < |s.tasks| && AllOk(cfg, s) && Keeps(cfg, Env(s.cancelled, s.shared), s.tasks[i], a)
    requires next.tasks == s.tasks[i := a.next] + a.spawned && next.cancelled == s.cancelled
    requires next.shared.issued == s.shared.issued + a.delta.issued
    ensures AllOk(cfg, next)
  {
    hide TaskOk, Ids;
    forall j | 0 <= j < |next.tasks| ensures TaskOk(cfg, next.cancelled, next.shared.issued, next.tasks[j]) {
      if j < |s.tasks| && j != i {
        TaskOkMonotone(cfg, s.cancelled, s.cancelled, s.shared.issued, next.shared.issued, s.tasks[j]);
        assert next.tasks[j] == s.tasks[j];
      } else if j >= |s.tasks| {
        assert next.tasks[j] in a.spawned;
      }
    }
  }

  lemma TaskStepInv(cfg: Config, s: System, i: nat, l: TaskStep)
    requires Inv(cfg, s) && Next(cfg, s, At(i, l)).Some?
    ensures Inv(cfg, Next(cfg, s, At(i, l)).value)
    ensures l != ReaderDo(SendFailed)
  {
    hide TaskNext, TaskOk, TaskTally, Total, Keeps, Conserves, Distinct, Covered;
    var env := Env(s.cancelled, s.shared);
    var next := Next(cfg, s, At(i, l)).value;
    var a := TaskNext(cfg, env, s.tasks[i], l).value;
    TotalSane(cfg, s.tasks);
    TaskKeeps(cfg, env, s.tasks[i], l);
    TaskConserves(cfg, env, s.tasks[i], l);
    TaskGuards(cfg, env, s.tasks[i], l);
    AccountStep(cfg, s, i, a, next);
    OkStep(cfg, s, i, a, next);
    MovedIds(cfg, env, s.tasks[i], a);
    forall j, k | 0 <= j < |s.tasks| && k in Ids(s.tasks[j]) ensures k <= s.shared.issued {
      OkIdsBounded(cfg, s.cancelled, s.shared.issued, s.tasks[j], k);
    }
    IdsStep(s.tasks, i, a, s.shared.issued);
    TotalSane(cfg, next.tasks);
  }

  lemma MovedIds(cfg: Config, env: Env, t: Task, a: Acted)
    requires Keeps(cfg, env, t, a)
    ensures IdsMove(env.shared.issued, t, a)
  {
  }

  lemma StepInv(cfg: Config, s: System, step: Step)
    requires Inv(cfg, s) && Next(cfg, s, step).Some?
    ensures Inv(cfg, Next(cfg, s, step).value)
  {
    if step.At? {
      hide Inv, Next;
      TaskStepInv(cfg, s, step.i, step.l);
    } else {
      ShutdownInv(cfg, s, step);
    }
  }

  lemma ShutdownInv(cfg: Config, s: System, step: Step)
    requires Inv(cfg, s) && !step.At? && Next(cfg, s, step).Some?
    ensures Inv(cfg, Next(cfg, s, step).value)
  {
    hide TaskOk, TaskTally, TaskNext, Total, Distinct, Covered;
    forall i | 0 <= i < |s.tasks| ensures TaskOk(cfg, true, s.shared.issued, s.tasks[i]) {
      TaskOkMonotone(cfg, s.cancelled, true, s.shared.issued, s.shared.issued, s.tasks[i]);
    }
  }

  /** The invariant holds at the end of every run. */
  lemma {:induction false} RunInv(cfg: Config, s: System, run: seq<Step>)
    requires Inv(cfg, s) && Execute(cfg, s, run).Some?
    ensures Inv(cfg, Execute(cfg, s, run).value)
    decreases |run|
  {
    hide Inv, Next;
    if run != [] {
      var before := run[..|run| - 1];
      RunInv(cfg, s, before);
      StepInv(cfg, Execute(cfg, s, before).value, run[|run| - 1]);
    }
  }

  lemma ReachableInv(cfg: Config, s: System)
    requires Reachable(cfg, s)
    ensures Inv(cfg, s)
  {
    hide Inv, Execute;
    var streams: nat, datagrams: bool, run: seq<Step> :|
      Execute(cfg, Initial(cfg, streams, datagrams), run) == Some(s);
    InitialInv(cfg, streams, datagrams);
    RunInv(cfg, Initial(cfg, streams, datagrams), run);
  }
}
