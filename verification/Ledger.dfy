/** The ledger of messages: where every message that was ever given an id stands.
    The shared counters are the sizes of its classes. */
module Ledger {
  import opened Bytes
  import opened Delivery
  import opened Protocol
  import opened Conservation
  import opened Safety

  /** `Named`: has an id, not yet in the gauge. `InFlight`: in the gauge, not counted.
      `Counted`: counted under its outcome, still in the gauge. `Left`: out of the
      gauge, permit still held. `Over`: permit back. */
  datatype Status = Named | InFlight | Counted(outcome: Outcome) | Left(outcome: Outcome) | Over(outcome: Outcome)

  datatype Entry = Entry(msg: Message, status: Status)

  function HoldEntry(h: Hold): Entry {
    Entry(h.msg, match h.stage
                 case Releasing(o) => Counted(o)
                 case Freeing(o) => Left(o)
                 case Done(o) => Over(o)
                 case _ => InFlight)
  }

  function HoldEntries(holds: seq<Hold>): seq<Entry> {
    seq(|holds|, i requires 0 <= i < |holds| => HoldEntry(holds[i]))
  }

  function QueuedEntries(msgs: seq<Message>): seq<Entry> {
    seq(|msgs|, i requires 0 <= i < |msgs| => Entry(msgs[i], InFlight))
  }

  function CourierEntries(k: Courier): seq<Entry> {
    if k.Holding? then [HoldEntry(k.hold)] else []
  }

  function ReaderEntries(r: Reader): seq<Entry> {
    match r
    case HaveId(msg) => [Entry(msg, Named)]
    case Sending(msg) => [Entry(msg, InFlight)]
    case _ => []
  }

  function Entries(t: Task): seq<Entry> {
    match t
    case Listener(_) => []
    case DatagramLoop(DatagramNamed(msg), _) => [Entry(msg, Named)]
    case DatagramLoop(DatagramGauged(msg), _) => [Entry(msg, InFlight)]
    case DatagramLoop(_, _) => []
    case Serving(c) =>
      HoldEntries(c.settled) + CourierEntries(c.courier) + QueuedEntries(c.channel) + ReaderEntries(c.reader)
    case DatagramTask(h, _) => [HoldEntry(h)]
  }

  /** The ways the program counts messages. */
  datatype Class = Everything | Gauged | Permitted | WasDelivered | WasAbandoned | WasDropped

  function OutcomeOf(status: Status): Option<Outcome> {
    match status
    case Counted(o) => Some(o)
    case Left(o) => Some(o)
    case Over(o) => Some(o)
    case _ => None
  }

  predicate In(kind: Class, e: Entry) {
    match kind
    case Everything => true
    case Gauged => e.status.InFlight? || e.status.Counted?
    case Permitted => !e.status.Over?
    case WasDelivered => OutcomeOf(e.status) == Some(Delivered)
    case WasAbandoned => OutcomeOf(e.status).Some? && OutcomeOf(e.status).value.Abandoned?
    case WasDropped => OutcomeOf(e.status) == Some(Dropped)
  }

  function Count(kind: Class, entries: seq<Entry>): nat {
    if entries == [] then 0
    else Count(kind, entries[..|entries| - 1]) + if In(kind, entries[|entries| - 1]) then 1 else 0
  }

  /** The counter kept for a class. */
  function Counter(kind: Class, t: Tally): int {
    match kind
    case Everything => t.issued
    case Gauged => t.pending
    case Permitted => -t.credits
    case WasDelivered => t.delivered
    case WasAbandoned => t.abandoned
    case WasDropped => t.dropped
  }

  /** What a counter holds besides messages with an id: a permit taken for a message
      without one yet, and datagrams turned away for want of a credit. */
  function Besides(kind: Class, t: Task): nat {
    match kind
    case Permitted =>
      if t.Serving? && t.conn.reader.HaveCredit? then 1
      else if t.DatagramLoop? && t.loop.DatagramCredited? then 1
      else 0
    case WasDropped => if t.DatagramLoop? then t.starved else 0
    case _ => 0
  }

  function CountAll(kind: Class, tasks: seq<Task>): nat {
    if tasks == [] then 0
    else CountAll(kind, tasks[..|tasks| - 1]) + Count(kind, Entries(tasks[|tasks| - 1]))
  }

  function BesidesAll(kind: Class, tasks: seq<Task>): nat {
    if tasks == [] then 0
    else BesidesAll(kind, tasks[..|tasks| - 1]) + Besides(kind, tasks[|tasks| - 1])
  }

  // ----------------------------------------------------------- the ledger and the tally

  lemma {:induction false} CountAppend(kind: Class, xs: seq<Entry>, ys: seq<Entry>)
    ensures Count(kind, xs + ys) == Count(kind, xs) + Count(kind, ys)
  {
    if ys == [] {
      assert xs + ys == xs;
    } else {
      var front := ys[..|ys| - 1];
      assert (xs + ys)[..|xs + ys| - 1] == xs + front;
      CountAppend(kind, xs, front);
    }
  }

  lemma CountOne(kind: Class, e: Entry)
    ensures Count(kind, [e]) == if In(kind, e) then 1 else 0
  {
    assert [e][..0] == [];
  }

  lemma {:induction false} CountQueued(kind: Class, msgs: seq<Message>)
    ensures Count(kind, QueuedEntries(msgs)) == Counter(kind, QueuedTally(|msgs|))
  {
    var entries := QueuedEntries(msgs);
    if msgs != [] {
      var front := msgs[..|msgs| - 1];
      CountQueued(kind, front);
      assert entries[..|msgs| - 1] == QueuedEntries(front);
    }
  }

  lemma CountHold(kind: Class, h: Hold)
    ensures Count(kind, [HoldEntry(h)]) == Counter(kind, HoldTally(h))
  {
    CountOne(kind, HoldEntry(h));
  }

  lemma {:induction false} CountHolds(kind: Class, holds: seq<Hold>)
    ensures Count(kind, HoldEntries(holds)) == Counter(kind, HoldsTally(holds))
  {
    var entries := HoldEntries(holds);
    if holds != [] {
      var front, last := holds[..|holds| - 1], holds[|holds| - 1];
      CountHolds(kind, front);
      assert entries == HoldEntries(front) + [HoldEntry(last)];
      CountAppend(kind, HoldEntries(front), [HoldEntry(last)]);
      CountHold(kind, last);
      hide HoldTally, HoldEntry, In;
    }
  }

  lemma CountReader(kind: Class, r: Reader)
    ensures Counter(kind, ReaderTally(r))
            == Count(kind, ReaderEntries(r)) + if kind.Permitted? && r.HaveCredit? then 1 else 0
  {
    if ReaderEntries(r) != [] {
      CountOne(kind, ReaderEntries(r)[0]);
    }
  }

  lemma CountConn(kind: Class, c: Conn)
    ensures Counter(kind, ConnTally(c)) == Count(kind, Entries(Serving(c))) + Besides(kind, Serving(c))
  {
    hide Count, Counter, Plus, HoldsTally, HoldTally, ReaderTally, QueuedTally, CourierTally, In, HoldEntry;
    var settled, held := HoldEntries(c.settled), CourierEntries(c.courier);
    var queued, reading := QueuedEntries(c.channel), ReaderEntries(c.reader);
    CountHolds(kind, c.settled);
    CountCourier(kind, c.courier);
    CountQueued(kind, c.channel);
    CountReader(kind, c.reader);
    CountAppend(kind, settled, held);
    CountAppend(kind, settled + held, queued);
    CountAppend(kind, settled + held + queued, reading);
    var front := Plus(ReaderTally(c.reader), QueuedTally(|c.channel|));
    var back := Plus(CourierTally(c.courier), HoldsTally(c.settled));
    CounterPlus(kind, ReaderTally(c.reader), QueuedTally(|c.channel|));
    CounterPlus(kind, CourierTally(c.courier), HoldsTally(c.settled));
    CounterPlus(kind, front, back);
  }

  lemma CounterPlus(kind: Class, a: Tally, b: Tally)
    ensures Counter(kind, Plus(a, b)) == Counter(kind, a) + Counter(kind, b)
  {
  }

  lemma CountCourier(kind: Class, k: Courier)
    ensures Count(kind, CourierEntries(k)) == Counter(kind, CourierTally(k))
  {
    if k.Holding? {
      hide HoldTally, HoldEntry;
      CountHold(kind, k.hold);
    }
  }

  lemma CountTask(cfg: Config, kind: Class, t: Task)
    ensures Counter(kind, TaskTally(cfg, t)) == Count(kind, Entries(t)) + Besides(kind, t)
  {
    match t
    case Listener(_) =>
    case DatagramLoop(loop, _) =>
      if Entries(t) != [] {
        CountOne(kind, Entries(t)[0]);
      }
    case Serving(c) => CountConn(kind, c);
    case DatagramTask(h, _) =>
      hide HoldTally, HoldEntry;
      CountHold(kind, h);
  }

  /** The account of all tasks is the sizes of the ledger's classes. */
  lemma {:induction false} CountTotal(cfg: Config, kind: Class, tasks: seq<Task>)
    ensures Counter(kind, Total(cfg, tasks)) == CountAll(kind, tasks) + BesidesAll(kind, tasks)
  {
    if tasks != [] {
      hide TaskTally, Entries, Besides;
      CountTotal(cfg, kind, tasks[..|tasks| - 1]);
      CountTask(cfg, kind, tasks[|tasks| - 1]);
    }
  }

  lemma EntriesMsgs(t: Task)
    ensures |Entries(t)| == |TaskMsgs(t)|
    ensures forall j | 0 <= j < |Entries(t)| :: Entries(t)[j].msg == TaskMsgs(t)[j]
  {
    if t.Serving? {
      var c := t.conn;
      assert |CourierEntries(c.courier)| == |CourierMsgs(c.courier)|;
      assert |ReaderEntries(c.reader)| == |ReaderMsgs(c.reader)|;
    }
  }

  // ----------------------------------------------------------------------- conservation

  /** Entry `j` of task `i` is the message with id `k`. */
  predicate Located(tasks: seq<Task>, k: int, i: nat, j: nat) {
    i < |tasks| && j < |Entries(tasks[i])| && Entries(tasks[i])[j].msg.id == k
  }

  lemma LocatedOnce(cfg: Config, s: System, k: int, i: nat, j: nat, i': nat, j': nat)
    requires Inv(cfg, s)
    requires Located(s.tasks, k, i, j) && Located(s.tasks, k, i', j')
    ensures i == i' && j == j'
  {
    hide Accounted, Covered, Bounded, ConnOk, HoldOk, TaskMsgs, Entries;
    EntriesMsgs(s.tasks[i]);
    EntriesMsgs(s.tasks[i']);
    assert k in Ids(s.tasks[i]) && k in Ids(s.tasks[i']);
    assert TaskOk(cfg, s.cancelled, s.shared.issued, s.tasks[i]);
  }

  lemma LocatedSomewhere(cfg: Config, s: System, k: int) returns (i: nat, j: nat)
    requires Inv(cfg, s) && 1 <= k <= s.shared.issued
    ensures Located(s.tasks, k, i, j)
  {
    hide Accounted, AllOk, Distinct, Bounded, TaskMsgs, Entries;
    assert Owned(s.tasks, k);
    i :| 0 <= i < |s.tasks| && k in Ids(s.tasks[i]);
    EntriesMsgs(s.tasks[i]);
    j :| 0 <= j < |TaskMsgs(s.tasks[i])| && TaskMsgs(s.tasks[i])[j].id == k;
  }

  /** Conservation. In every reachable state every message ever given an id has
      exactly one place, so it is in exactly one of the classes below. */
  lemma ExactlyOnePlace(cfg: Config, s: System, k: int)
    requires Reachable(cfg, s) && 1 <= k <= s.shared.issued
    ensures exists i: nat, j: nat :: Located(s.tasks, k, i, j)
    ensures forall i: nat, j: nat, i': nat, j': nat
              | Located(s.tasks, k, i, j) && Located(s.tasks, k, i', j') :: i == i' && j == j'
  {
    hide Inv, Located;
    ReachableInv(cfg, s);
    var i, j := LocatedSomewhere(cfg, s, k);
    forall i: nat, j: nat, i': nat, j': nat | Located(s.tasks, k, i, j) && Located(s.tasks, k, i', j')
      ensures i == i' && j == j'
    {
      LocatedOnce(cfg, s, k, i, j, i', j');
    }
  }

  /** Conservation. In every reachable state each counter is the number of messages in
      its class: the gauge holds exactly the messages between its increment and its
      release, and the rest of the messages that entered it have been delivered,
      abandoned or dropped, and counted so once. A drain timeout only takes from the
      gauge: what was taken bounds how far the gauge falls short, and what of it has
      been added is the excess of the abandoned counter. */
  lemma CountersAreClassSizes(cfg: Config, s: System)
    requires Reachable(cfg, s)
    ensures s.shared.issued == CountAll(Everything, s.tasks)
    ensures 0 <= s.shared.pending <= CountAll(Gauged, s.tasks) <= s.shared.pending + SweptAway(s)
    ensures s.shared.delivered == CountAll(WasDelivered, s.tasks)
    ensures s.shared.abandoned == CountAll(WasAbandoned, s.tasks) + s.swept
    ensures s.shared.dropped == CountAll(WasDropped, s.tasks) + BesidesAll(WasDropped, s.tasks)
    ensures !s.timedOut ==> SweptAway(s) == s.swept == 0
  {
    hide CountAll, Total, AllOk, Distinct, Covered, Reachable, BesidesAll;
    ReachableInv(cfg, s);
    forall kind: Class
      ensures Counter(kind, Total(cfg, s.tasks)) == CountAll(kind, s.tasks) + BesidesAll(kind, s.tasks)
    {
      CountTotal(cfg, kind, s.tasks);
    }
    BesidesNothing(s.tasks);
    var total := Total(cfg, s.tasks);
    assert Counter(Everything, total) == CountAll(Everything, s.tasks) + BesidesAll(Everything, s.tasks);
    assert Counter(Gauged, total) == CountAll(Gauged, s.tasks) + BesidesAll(Gauged, s.tasks);
    assert Counter(WasDelivered, total) == CountAll(WasDelivered, s.tasks) + BesidesAll(WasDelivered, s.tasks);
    assert Counter(WasAbandoned, total) == CountAll(WasAbandoned, s.tasks) + BesidesAll(WasAbandoned, s.tasks);
    assert Counter(WasDropped, total) == CountAll(WasDropped, s.tasks) + BesidesAll(WasDropped, s.tasks);
  }

  lemma {:induction false} BesidesNothing(tasks: seq<Task>)
    ensures forall kind: Class :: !kind.Permitted? && !kind.WasDropped? ==> BesidesAll(kind, tasks) == 0
  {
    if tasks != [] {
      BesidesNothing(tasks[..|tasks| - 1]);
    }
  }
}
