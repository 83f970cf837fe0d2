/** The guarantees of the delivery protocol, for every reachable state. */
module Guarantees {
  import opened Delivery
  import opened Protocol
  import opened Conservation
  import opened Safety
  import opened Ledger
  import opened History

  lemma TaskAt(cfg: Config, s: System, i: nat)
    requires Reachable(cfg, s) && i < |s.tasks|
    ensures TaskOk(cfg, s.cancelled, s.shared.issued, s.tasks[i])
  {
    hide Accounted, Distinct, Covered, Bounded, Reachable, TaskOk;
    ReachableInv(cfg, s);
  }

  lemma ConnAt(cfg: Config, s: System, i: nat)
    requires Reachable(cfg, s) && i < |s.tasks| && s.tasks[i].Serving?
    ensures ConnOk(cfg, s.cancelled, s.shared.issued, s.tasks[i].conn)
  {
    hide ConnOk, Reachable;
    TaskAt(cfg, s, i);
  }

  // ---------------------------------------------------------------------------- credits

  /** Permits a task holds, for messages with an id and without. */
  function Permits(t: Task): nat {
    Count(Permitted, Entries(t)) + Besides(Permitted, t)
  }

  function AllPermits(tasks: seq<Task>): nat {
    CountAll(Permitted, tasks) + BesidesAll(Permitted, tasks)
  }

  /** Credit bounds. No credit is created or lost, none is taken that is not there,
      and the gauge never shows more messages than permits are held. */
  lemma CreditBounds(cfg: Config, s: System)
    requires Reachable(cfg, s)
    ensures 0 <= s.shared.credits
    ensures s.shared.credits + AllPermits(s.tasks) == cfg.maxPending
    ensures s.shared.pending <= AllPermits(s.tasks) <= cfg.maxPending
  {
    hide Total, AllOk, Distinct, Covered, Reachable, CountAll, BesidesAll;
    ReachableInv(cfg, s);
    CountTotal(cfg, Permitted, s.tasks);
    TotalSane(cfg, s.tasks);
  }

  lemma {:induction false} SettledHoldNone(holds: seq<Hold>)
    requires forall h | h in holds :: h.stage.Done?
    ensures Count(Permitted, HoldEntries(holds)) == 0
  {
    if holds != [] {
      var n := |holds| - 1;
      assert holds[n] in holds;
      SettledHoldNone(holds[..n]);
      assert HoldEntries(holds)[..n] == HoldEntries(holds[..n]);
    }
  }

  lemma {:induction false} CountAtMost(kind: Class, entries: seq<Entry>)
    ensures Count(kind, entries) <= |entries|
  {
    if entries != [] {
      CountAtMost(kind, entries[..|entries| - 1]);
    }
  }

  /** One connection holds at most its channel, one message in delivery and one on
      its way into the channel. */
  lemma ConnectionCredits(cfg: Config, s: System, i: nat)
    requires Reachable(cfg, s) && i < |s.tasks| && s.tasks[i].Serving?
    ensures Permits(s.tasks[i]) <= cfg.perConnection + 2
  {
    hide Order, HeadOfLine, GivesUp, HoldOk, Reachable;
    ConnAt(cfg, s, i);
    var c := s.tasks[i].conn;
    var settled := HoldEntries(c.settled);
    var others := CourierEntries(c.courier) + QueuedEntries(c.channel) + ReaderEntries(c.reader);
    SettledHoldNone(c.settled);
    assert Entries(s.tasks[i]) == settled + others;
    CountAppend(Permitted, settled, others);
    CountAtMost(Permitted, others);
  }

  // ------------------------------------------------------------------------ connections

  /** A connection that has not been through `close_stream`'s decrement. */
  predicate Live(t: Task) {
    t.Serving? && !t.conn.reader.CountingClosed? && !t.conn.reader.Ending? && !t.conn.reader.Gone?
  }

  /** A listener with its hand on the connection counter. */
  predicate Provisional(t: Task) {
    t.Listener? && !t.listener.Accepting? && !t.listener.Stopped?
  }

  predicate FullyClosed(t: Task) {
    t.Serving? && (t.conn.reader.Ending? || t.conn.reader.Gone?)
  }

  predicate Announced(t: Task) {
    t.Serving? || (t.Listener? && t.listener.Opened?)
  }

  /** A connection whose reader panicked and is out of the tracker. */
  predicate HasCrashed(t: Task) {
    t.Serving? && t.conn.reader.Crashed?
  }

  datatype Role = IsLive | IsProvisional | IsClosed | IsAnnounced | IsCrashed

  predicate Plays(role: Role, t: Task) {
    match role
    case IsLive => Live(t)
    case IsProvisional => Provisional(t)
    case IsClosed => FullyClosed(t)
    case IsAnnounced => Announced(t)
    case IsCrashed => HasCrashed(t)
  }

  function HowMany(role: Role, tasks: seq<Task>): nat {
    if tasks == [] then 0
    else HowMany(role, tasks[..|tasks| - 1]) + if Plays(role, tasks[|tasks| - 1]) then 1 else 0
  }

  /** Only the reader's position counts towards connections and the tracker. */
  lemma ReaderDecides(c: Conn)
    ensures var tally := ConnTally(c); var reader := ReaderTally(c.reader);
            && tally.connections == reader.connections && tally.served == reader.served
            && tally.closes == reader.closes && tally.opens == reader.opens && tally.tracked == reader.tracked
  {
    hide HoldsTally, HoldTally, ReaderTally;
    SettledOpensNothing(c.settled);
    if c.courier.Holding? {
      HoldOpensNothing(c.courier.hold);
    }
  }

  lemma RolesOfTask(cfg: Config, t: Task)
    ensures var tally := TaskTally(cfg, t);
            && tally.connections == (if Live(t) then 1 else 0) + (if Provisional(t) then 1 else 0)
            && tally.served >= (if Live(t) then 1 else 0)
            && tally.closes == (if FullyClosed(t) then 1 else 0)
            && tally.opens == (if Announced(t) then 1 else 0)
  {
    hide ConnTally, HoldTally;
    match t
    case Serving(c) => ReaderDecides(c);
    case DatagramTask(h, _) => HoldOpensNothing(h);
    case _ =>
  }

  lemma {:induction false} SettledOpensNothing(holds: seq<Hold>)
    ensures var tally := HoldsTally(holds);
            tally.connections == tally.served == tally.closes == tally.opens == tally.tracked == 0
  {
    if holds != [] {
      hide HoldTally;
      SettledOpensNothing(holds[..|holds| - 1]);
      HoldOpensNothing(holds[|holds| - 1]);
    }
  }

  lemma HoldOpensNothing(h: Hold)
    ensures var tally := HoldTally(h);
            tally.connections == tally.served == tally.closes == tally.opens == tally.tracked == 0
  {
  }

  lemma {:induction false} RolesOfAll(cfg: Config, tasks: seq<Task>)
    ensures var total := Total(cfg, tasks);
            && total.connections == HowMany(IsLive, tasks) + HowMany(IsProvisional, tasks)
            && total.served >= HowMany(IsLive, tasks)
            && total.closes == HowMany(IsClosed, tasks)
            && total.opens == HowMany(IsAnnounced, tasks)
  {
    if tasks != [] {
      hide TaskTally, Live, Provisional, FullyClosed, Announced;
      RolesOfAll(cfg, tasks[..|tasks| - 1]);
      RolesOfTask(cfg, tasks[|tasks| - 1]);
    }
  }

  /** Connection limit. However the accept loops' add, check and undo steps and the
      closes interleave, no more than the limit are served, the counter is the live
      connections plus the provisional ones, and every connection is counted opened
      once and closed once when it is over. One that crashed stays among the live. */
  lemma ConnectionLimit(cfg: Config, s: System)
    requires Reachable(cfg, s)
    ensures HowMany(IsLive, s.tasks) <= cfg.maxConnections
    ensures s.shared.connections == HowMany(IsLive, s.tasks) + HowMany(IsProvisional, s.tasks)
    ensures s.shared.opens == HowMany(IsAnnounced, s.tasks)
    ensures s.shared.closes == HowMany(IsClosed, s.tasks)
  {
    hide Total, AllOk, Distinct, Covered, Reachable, HowMany;
    ReachableInv(cfg, s);
    RolesOfAll(cfg, s.tasks);
  }

  // ------------------------------------------------------------------------------ drain

  /** A crashed connection whose delivery task, which nobody tracks, still has messages. */
  predicate Orphaned(t: Task) {
    HasCrashed(t) && (t.conn.channel != [] || t.conn.courier.Holding?)
  }

  predicate NoneOrphaned(tasks: seq<Task>) {
    forall i | 0 <= i < |tasks| :: !Orphaned(tasks[i])
  }

  predicate Settled(t: Task) {
    forall e | e in Entries(t) :: e.status.Over?
  }

  /** Everything has left the tracker: what is left is closed, crashed or no connection. */
  predicate Untracked(t: Task) {
    && (Settled(t) <==> !Orphaned(t))
    && Besides(Permitted, t) == 0
    && (Live(t) <==> HasCrashed(t)) && !Provisional(t)
    && (t.Serving? ==> (FullyClosed(t) <==> !HasCrashed(t)))
  }

  /** A task that has left the tracker has nothing left to deliver, unless it crashed
      and left a delivery task behind that has. */
  lemma UntrackedIsOver(cfg: Config, cancelled: bool, issued: int, t: Task)
    requires TaskOk(cfg, cancelled, issued, t) && TaskTally(cfg, t).tracked == 0
    ensures Untracked(t)
  {
    hide ConnTally, HoldTally, ConnOk, Increasing, Settled;
    match t
    case Serving(c) =>
      ReaderDecides(c);
      LeftBehind(cfg, cancelled, issued, c);
    case DatagramTask(h, _) =>
      HoldOpensNothing(h);
      OneSettled(h);
    case _ => NothingToSettle(t);
  }

  lemma NothingToSettle(t: Task)
    requires Entries(t) == []
    ensures Settled(t)
  {
  }

  lemma OneSettled(h: Hold)
    ensures forall over: bool :: Settled(DatagramTask(h, over)) <==> h.stage.Done?
  {
    forall over: bool ensures Settled(DatagramTask(h, over)) <==> h.stage.Done? {
      assert HoldEntry(h) in Entries(DatagramTask(h, over));
    }
  }

  lemma LeftBehind(cfg: Config, cancelled: bool, issued: int, c: Conn)
    requires ConnOk(cfg, cancelled, issued, c) && (c.reader.Gone? || c.reader.Crashed?)
    ensures Settled(Serving(c)) <==> !Orphaned(Serving(c))
  {
    hide Order, HeadOfLine, GivesUp, HoldOk;
    var held, queued := CourierEntries(c.courier), QueuedEntries(c.channel);
    assert Entries(Serving(c)) == HoldEntries(c.settled) + (held + queued);
    if c.courier.Holding? {
      assert held[0] in held + queued;
    } else if c.channel != [] {
      assert queued[0] in held + queued;
    }
  }

  lemma {:induction false} SettledCount(entries: seq<Entry>)
    ensures Count(Permitted, entries) == 0 <==> forall e | e in entries :: e.status.Over?
    ensures Count(Gauged, entries) <= Count(Permitted, entries)
  {
    if entries != [] {
      var n := |entries| - 1;
      assert entries == entries[..n] + [entries[n]];
      SettledCount(entries[..n]);
    }
  }

  predicate AllUntracked(tasks: seq<Task>) {
    forall i | 0 <= i < |tasks| :: Untracked(tasks[i])
  }

  lemma {:induction false} UntrackedCounts(tasks: seq<Task>)
    requires AllUntracked(tasks)
    ensures CountAll(Permitted, tasks) == 0 <==> NoneOrphaned(tasks)
    ensures CountAll(Gauged, tasks) <= CountAll(Permitted, tasks) && BesidesAll(Permitted, tasks) == 0
  {
    hide Entries, Besides, Count, Orphaned, Live, Provisional, FullyClosed, HasCrashed;
    if tasks != [] {
      var n := |tasks| - 1;
      var front, last := tasks[..n], tasks[n];
      UntrackedCounts(front);
      SettledCount(Entries(last));
      assert Untracked(last);
      if NoneOrphaned(front) && !Orphaned(last) {
        assert forall i | 0 <= i < |tasks| :: tasks[i] == if i < n then front[i] else last;
      }
      assert NoneOrphaned(tasks) ==> !Orphaned(tasks[n]);
      assert NoneOrphaned(tasks) ==> forall i | 0 <= i < n :: front[i] == tasks[i];
    }
  }

  lemma {:induction false} UntrackedRoles(tasks: seq<Task>)
    requires AllUntracked(tasks)
    ensures HowMany(IsLive, tasks) == HowMany(IsCrashed, tasks) && HowMany(IsProvisional, tasks) == 0
    ensures HowMany(IsAnnounced, tasks) == HowMany(IsClosed, tasks) + HowMany(IsCrashed, tasks)
  {
    hide Settled, Orphaned, Besides;
    if tasks != [] {
      var n := |tasks| - 1;
      UntrackedRoles(tasks[..n]);
      assert Untracked(tasks[n]);
    }
  }

  lemma {:induction false} OverPartition(entries: seq<Entry>)
    requires forall e | e in entries :: e.status.Over?
    ensures Count(Everything, entries)
            == Count(WasDelivered, entries) + Count(WasAbandoned, entries) + Count(WasDropped, entries)
  {
    if entries != [] {
      assert entries[|entries| - 1] in entries;
      OverPartition(entries[..|entries| - 1]);
    }
  }

  lemma {:induction false} AllOverPartition(tasks: seq<Task>)
    requires forall i | 0 <= i < |tasks| :: Settled(tasks[i])
    ensures CountAll(Everything, tasks)
            == CountAll(WasDelivered, tasks) + CountAll(WasAbandoned, tasks) + CountAll(WasDropped, tasks)
  {
    if tasks != [] {
      var n := |tasks| - 1;
      assert forall i | 0 <= i < n :: tasks[..n][i] == tasks[i];
      AllOverPartition(tasks[..n]);
      assert Settled(tasks[n]);
      OverPartition(Entries(tasks[n]));
      hide Entries, Count;
    }
  }

  /** Drain completeness. When the tracker is empty, every credit is back if and only if
      no delivery task of a crashed connection has messages left, and if and only if
      every message ever given an id has been delivered, abandoned or dropped. Then the
      gauge is zero, and the abandoned counter exceeds the abandoned messages by what
      drain timeouts added, and without one by nothing. The connections that the
      counter still shows, and that were not counted closed, are the crashed ones. */
  lemma DrainCompleteness(cfg: Config, s: System)
    requires Reachable(cfg, s) && s.shared.tracked == 0
    ensures s.shared.credits == cfg.maxPending <==> NoneOrphaned(s.tasks)
    ensures NoneOrphaned(s.tasks) <==> forall i | 0 <= i < |s.tasks| :: Settled(s.tasks[i])
    ensures NoneOrphaned(s.tasks) ==>
              && s.shared.pending == 0
              && s.shared.issued + BesidesAll(WasDropped, s.tasks)
                 == s.shared.delivered + (s.shared.abandoned - s.swept) + s.shared.dropped
    ensures !s.timedOut ==> s.swept == 0
    ensures s.shared.connections == HowMany(IsCrashed, s.tasks)
    ensures s.shared.opens == s.shared.closes + HowMany(IsCrashed, s.tasks)
  {
    hide Reachable, CountAll, BesidesAll, HowMany, Settled, Orphaned;
    EmptyTracker(cfg, s);
    UntrackedCounts(s.tasks);
    UntrackedRoles(s.tasks);
    AllSettledOrOrphaned(s.tasks);
    CreditBounds(cfg, s);
    ConnectionLimit(cfg, s);
    CountersAreClassSizes(cfg, s);
    if NoneOrphaned(s.tasks) {
      AllOverPartition(s.tasks);
    }
  }

  lemma AllSettledOrOrphaned(tasks: seq<Task>)
    requires AllUntracked(tasks)
    ensures NoneOrphaned(tasks) <==> forall i | 0 <= i < |tasks| :: Settled(tasks[i])
  {
    hide Settled, Orphaned, Live, Provisional, FullyClosed, Besides;
  }

  lemma EmptyTracker(cfg: Config, s: System)
    requires Reachable(cfg, s) && s.shared.tracked == 0
    ensures AllUntracked(s.tasks)
  {
    hide Total, TaskTally, TaskOk, Distinct, Covered, Reachable, Untracked;
    ReachableInv(cfg, s);
    TotalSane(cfg, s.tasks);
    forall i | 0 <= i < |s.tasks| ensures Untracked(s.tasks[i]) {
      assert s.tasks[i] in s.tasks;
      UntrackedIsOver(cfg, s.cancelled, s.shared.issued, s.tasks[i]);
    }
  }

  /** A crashed connection never gives its place back: along every run it stays crashed
      and counted. */
  lemma CrashedForGood(cfg: Config, s: System, run: seq<Step>, i: nat)
    requires Reachable(cfg, s) && Execute(cfg, s, run).Some? && i < |s.tasks| && HasCrashed(s.tasks[i])
    ensures var later := Execute(cfg, s, run).value;
            i < |later.tasks| && HasCrashed(later.tasks[i]) && Live(later.tasks[i])
  {
    hide Reachable, Execute;
    HistoryGrows(cfg, s, run);
    assert Grows(s.tasks[i], Execute(cfg, s, run).value.tasks[i]);
  }

  // -------------------------------------------------------------------- order and retries

  /** Worker-queue entries in turn: each is the next attempt at the message before it,
      or the first attempt at a later message. */
  predicate InTurn(offers: seq<Offer>) {
    forall p | 0 <= p < |offers| ::
      || (p > 0 && offers[p].msg == offers[p - 1].msg && offers[p].attempt == offers[p - 1].attempt + 1)
      || (offers[p].attempt == 1 && (p > 0 ==> offers[p - 1].msg.id < offers[p].msg.id))
  }

  lemma InTurnAppend(offers: seq<Offer>, h: Hold)
    requires InTurn(offers) && forall p | 0 <= p < |offers| :: offers[p].msg.id < h.msg.id
    ensures InTurn(offers + Numbered(h))
  {
    var all := offers + Numbered(h);
    forall p | |offers| <= p < |all|
      ensures || (p > 0 && all[p].msg == all[p - 1].msg && all[p].attempt == all[p - 1].attempt + 1)
              || (all[p].attempt == 1 && (p > 0 ==> all[p - 1].msg.id < all[p].msg.id))
    {
      assert all[p] == Offer(h.msg, p - |offers| + 1);
      if p > |offers| {
        assert all[p - 1] == Offer(h.msg, p - |offers|);
      }
    }
  }

  lemma {:induction false} OffersInTurn(holds: seq<Hold>)
    requires Ascending(holds)
    ensures InTurn(OffersOf(holds))
    ensures forall p | 0 <= p < |OffersOf(holds)| :: exists h | h in holds :: OffersOf(holds)[p].msg == h.msg
  {
    if holds != [] {
      var n := |holds| - 1;
      var before := OffersOf(holds[..n]);
      OffersInTurn(holds[..n]);
      forall p | 0 <= p < |before| ensures before[p].msg.id < holds[n].msg.id {
        var h :| h in holds[..n] && before[p].msg == h.msg;
      }
      InTurnAppend(before, holds[n]);
      forall p | 0 <= p < |OffersOf(holds)| ensures exists h | h in holds :: OffersOf(holds)[p].msg == h.msg {
        if p < |before| {
          var h :| h in holds[..n] && before[p].msg == h.msg;
          assert h in holds;
        } else {
          assert holds[n] in holds;
        }
      }
    }
  }

  /** Head-of-line order: on every connection the workers see the attempts of one
      message one after the other, numbered 1, 2, 3 and so on, and a later message
      only after the last attempt of the earlier one. */
  lemma HeadOfLineOrder(cfg: Config, s: System, i: nat)
    requires Reachable(cfg, s) && i < |s.tasks| && s.tasks[i].Serving?
    ensures InTurn(s.tasks[i].conn.offers)
  {
    hide HoldOk, GivesUp, Reachable, OffersOf, Numbered, InTurn;
    ConnAt(cfg, s, i);
    var c := s.tasks[i].conn;
    var holds := Taken(c);
    assert forall k | 0 <= k < |holds| :: holds[k].msg == Msgs(c)[k];
    OffersInTurn(holds);
    OffersOfAppend(c.settled, c.courier);
    assert c.courier.Holding? || holds == c.settled;
  }

  lemma OffersOfAppend(settled: seq<Hold>, k: Courier)
    ensures k.Holding? ==> OffersOf(settled + [k.hold]) == OffersOf(settled) + CourierOffers(k)
    ensures !k.Holding? ==> OffersOf(settled) == OffersOf(settled) + CourierOffers(k)
  {
    if k.Holding? {
      assert (settled + [k.hold])[..|settled|] == settled;
    }
  }

  /** The attempt numbers under which the workers were offered message `id`, in order. */
  function AttemptsAt(offers: seq<Offer>, id: int): seq<nat> {
    if offers == [] then []
    else
      var n := |offers| - 1;
      AttemptsAt(offers[..n], id) + if offers[n].msg.id == id then [offers[n].attempt] else []
  }

  function UpTo(n: nat): seq<nat> {
    seq(n, i requires 0 <= i => i + 1)
  }

  lemma {:induction false} AttemptsNumbered(offers: seq<Offer>, h: Hold, n: nat, id: int)
    requires n <= h.offered
    ensures AttemptsAt(offers + Numbered(h)[..n], id)
            == AttemptsAt(offers, id) + if h.msg.id == id then UpTo(n) else []
  {
    var all := offers + Numbered(h)[..n];
    if n == 0 {
      assert all == offers;
    } else {
      assert all[..|all| - 1] == offers + Numbered(h)[..n - 1];
      AttemptsNumbered(offers, h, n - 1, id);
      assert UpTo(n) == UpTo(n - 1) + [n];
    }
  }

  predicate Ascending(holds: seq<Hold>) {
    forall i, j | 0 <= i < j < |holds| :: holds[i].msg.id < holds[j].msg.id
  }

  lemma AttemptsLast(holds: seq<Hold>, id: int)
    requires holds != []
    ensures var n := |holds| - 1;
            AttemptsAt(OffersOf(holds), id)
            == AttemptsAt(OffersOf(holds[..n]), id) + if holds[n].msg.id == id then UpTo(holds[n].offered) else []
  {
    hide AttemptsAt, UpTo, Numbered;
    var n := |holds| - 1;
    AttemptsNumbered(OffersOf(holds[..n]), holds[n], holds[n].offered, id);
    WholeNumbered(holds[n]);
  }

  lemma {:induction false} AttemptsNone(holds: seq<Hold>, id: int)
    requires forall j | 0 <= j < |holds| :: holds[j].msg.id != id
    ensures AttemptsAt(OffersOf(holds), id) == []
  {
    if holds != [] {
      hide AttemptsAt, OffersOf, UpTo;
      AttemptsNone(holds[..|holds| - 1], id);
      AttemptsLast(holds, id);
    }
  }

  lemma {:induction false} AttemptsOf(holds: seq<Hold>, j: nat)
    requires Ascending(holds) && j < |holds|
    ensures AttemptsAt(OffersOf(holds), holds[j].msg.id) == UpTo(holds[j].offered)
  {
    hide AttemptsAt, OffersOf, UpTo;
    var n := |holds| - 1;
    AttemptsLast(holds, holds[j].msg.id);
    if j < n {
      AttemptsOf(holds[..n], j);
      assert UpTo(holds[j].offered) + [] == UpTo(holds[j].offered);
    } else {
      AttemptsNone(holds[..n], holds[j].msg.id);
      assert [] + UpTo(holds[j].offered) == UpTo(holds[j].offered);
    }
  }

  lemma WholeNumbered(h: Hold)
    ensures Numbered(h)[..h.offered] == Numbered(h)
  {
  }

  /** The messages a connection's delivery task is done with or has in hand. */
  function Taken(c: Conn): seq<Hold> {
    c.settled + if c.courier.Holding? then [c.courier.hold] else []
  }

  /** The workers were offered each message of a connection under attempts 1, 2, 3 and
      so on, each exactly once. */
  lemma AttemptsCounted(cfg: Config, s: System, i: nat, j: nat)
    requires Reachable(cfg, s) && i < |s.tasks| && s.tasks[i].Serving? && j < |Taken(s.tasks[i].conn)|
    ensures var c := s.tasks[i].conn; var h := Taken(c)[j];
            AttemptsAt(c.offers, h.msg.id) == UpTo(h.offered)
  {
    hide HoldOk, GivesUp, Reachable, OffersOf, Numbered, AttemptsAt, UpTo;
    ConnAt(cfg, s, i);
    var c := s.tasks[i].conn;
    var holds := Taken(c);
    assert forall k | 0 <= k < |holds| :: holds[k].msg == Msgs(c)[k];
    AttemptsOf(holds, j);
    OffersOfAppend(c.settled, c.courier);
    assert c.courier.Holding? || holds == c.settled;
  }

  /** At-most-once admission. Along every run, what a connection has settled stays
      settled and as it was, and a settled message is never offered to the workers
      again: after an Accepted verdict there is no further attempt. */
  lemma NeverOfferedAgain(cfg: Config, s: System, run: seq<Step>, i: nat, j: nat)
    requires Reachable(cfg, s) && Execute(cfg, s, run).Some?
    requires i < |s.tasks| && s.tasks[i].Serving? && j < |s.tasks[i].conn.settled|
    ensures var later := Execute(cfg, s, run).value;
            && i < |later.tasks| && later.tasks[i].Serving?
            && var c, d := s.tasks[i].conn, later.tasks[i].conn;
            && ConnGrows(c, d)
            && d.settled[j] == c.settled[j]
            && AttemptsAt(d.offers, c.settled[j].msg.id) == AttemptsAt(c.offers, c.settled[j].msg.id)
  {
    hide Reachable, Execute, Steady, AttemptsAt, UpTo;
    ReachableOn(cfg, s, run);
    HistoryGrows(cfg, s, run);
    var later := Execute(cfg, s, run).value;
    assert Grows(s.tasks[i], later.tasks[i]);
    AttemptsCounted(cfg, s, i, j);
    AttemptsCounted(cfg, later, i, j);
    assert Taken(s.tasks[i].conn)[j] == Taken(later.tasks[i].conn)[j];
  }

  /** What became of a stream message, and how often it was tried: it is delivered on
      the attempt that was accepted, all earlier ones having been turned away; or it
      is abandoned because of shutdown after its last refusal, or for want of workers.
      It is never dropped, and the waits between its attempts follow the closed form. */
  predicate FairlySettled(cancelled: bool, afterLoss: bool, h: Hold) {
    && h.stage.Done?
    && Accepted !in h.past
    && h.attempt >= 1 && h.slept == TotalBackoff(h.attempt - 1)
    && h.late <= 1 && (!cancelled ==> h.late == 0)
    && (h.stage.outcome.Delivered? ==> h.offered == h.attempt == |h.past| + 1)
    && (h.stage.outcome == Abandoned(Shutdown) ==> cancelled && h.offered == h.attempt == |h.past|)
    && (afterLoss <==> h.stage.outcome == Abandoned(Unattempted))
    && (afterLoss ==> h.offered == 0 && h.past == [])
    && h.stage.outcome != Dropped
  }

  /** Head of line, at most once, shutdown: every settled message of every connection
      in every reachable state. After the first message that found no workers, every
      later one is abandoned unattempted; after shutdown no message begins more than
      one further attempt. */
  lemma SettledFairly(cfg: Config, s: System, i: nat, j: nat)
    requires Reachable(cfg, s) && i < |s.tasks| && s.tasks[i].Serving? && j < |s.tasks[i].conn.settled|
    ensures var c := s.tasks[i].conn;
            FairlySettled(s.cancelled, j > FirstLoss(c.settled), c.settled[j])
  {
    hide Order, HeadOfLine, Shape, Reachable, FirstLoss;
    ConnAt(cfg, s, i);
    var c := s.tasks[i].conn;
    assert c.settled[j] in c.settled;
    assert NeverTried(c.settled[j]) <==> j > FirstLoss(c.settled);
  }

  /** The same for a message still in hand: shutdown leaves it one attempt, and the
      wait before its next one is the closed form of the refusals so far. */
  lemma InHandFairly(cfg: Config, s: System, i: nat)
    requires Reachable(cfg, s) && i < |s.tasks| && s.tasks[i].Serving? && s.tasks[i].conn.courier.Holding?
    ensures var h := s.tasks[i].conn.courier.hold;
            && h.attempt >= 1 && h.late <= 1
            && h.delay == Backoff(h.attempt - 1) && h.slept == TotalBackoff(h.attempt - 1)
            && h.attempt - 1 <= |h.past| <= h.offered <= h.attempt
  {
    hide Order, HeadOfLine, Shape, GivesUp, Reachable;
    ConnAt(cfg, s, i);
  }

  /** A datagram is tried at most once, and is dropped if it is not accepted; one that
      filled the receive buffer never becomes a message. */
  lemma DatagramTriedOnce(cfg: Config, s: System, i: nat)
    requires Reachable(cfg, s) && i < |s.tasks| && s.tasks[i].DatagramTask?
    ensures var h := s.tasks[i].hold;
            && h.offered <= 1 && h.attempt == 1 && h.slept == 0 && |h.msg.body| < cfg.udpBuffer
            && (h.stage.Done? ==> h.stage.outcome == Delivered || h.stage.outcome == Dropped)
            && (h.stage == Done(Delivered) ==> h.past == [] && h.offered == 1)
  {
    hide Reachable;
    TaskAt(cfg, s, i);
  }

  /** In no reachable state is the reader's failed-send branch enabled, so no framed
      message is lost between the reader and the delivery task. */
  lemma ReaderNeverLosesReceiver(cfg: Config, s: System, i: nat)
    requires Reachable(cfg, s)
    ensures Next(cfg, s, At(i, ReaderDo(SendFailed))).None?
  {
    hide Reachable;
    if i < |s.tasks| && s.tasks[i].Serving? {
      ConnAt(cfg, s, i);
      hide Order, HeadOfLine, HoldsOk, GivesUp;
      ReceiverOutlivesSender(cfg, s.shared, s.tasks[i].conn);
    }
  }
}
