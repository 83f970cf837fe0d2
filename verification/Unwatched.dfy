/** A run at whose end nothing is tracked and a message is still pending: the reader of
    its connection panicked behind a skipped line, and its delivery task is on its own. */
module Unwatched {
  import opened Bytes
  import opened Framing
  import opened FramingCondition
  import opened Delivery
  import opened Safety
  import opened History
  import opened Draining
  import Guarantees

  const CFG := Config(false, 3, 1, 1, 1, 100)

  lemma Onwards(s: System, step: Step)
    requires Reachable(CFG, s) && Next(CFG, s, step).Some?
    ensures Reachable(CFG, Next(CFG, s, step).value)
  {
    hide Reachable, Next;
    ExecuteOne(CFG, s, step);
    ReachableOn(CFG, s, [step]);
  }

  // ------------------------------------------------------------------------- the accept loop

  /** The accept loop before there is a connection. */
  function Hall(shared: Tally, t: StreamListener): System {
    System(shared, [Listener(t)], false, false, None, 0)
  }

  /** Nothing pending, one credit, `n` tasks. */
  predicate Quietly(shared: Tally, n: int) {
    shared.credits == 1 && shared.pending == 0 && shared.tracked == n && shared.connections == shared.opens
  }

  lemma Listen(shared: Tally, t: StreamListener, l: ListenerStep, a: Acted) returns (after: Tally)
    requires Reachable(CFG, Hall(shared, t)) && ListenerNext(CFG, Env(false, shared), t, l) == Some(a)
    requires a.next.Listener? && a.spawned == []
    ensures after == Post(shared, a.delta) && Reachable(CFG, Hall(after, a.next.listener))
  {
    hide Reachable, ListenerNext, Post;
    var s := Hall(shared, t);
    assert s.tasks[0 := a.next] + [] == [a.next];
    Onwards(s, At(0, ListenerDo(l)));
    after := Post(shared, a.delta);
  }

  lemma Start()
    ensures Reachable(CFG, Hall(Tally(credits := 1, tracked := 1), Accepting))
  {
    var s := Initial(CFG, 1, false);
    assert s.tasks == [Listener(Accepting)];
    assert Execute(CFG, s, []) == Some(s);
  }

  lemma Greeting() returns (shared: Tally)
    ensures Reachable(CFG, Hall(shared, Added(0, None)))
    ensures shared.credits == 1 && shared.pending == 0 && shared.tracked == 1
    ensures shared.connections == 1 && shared.opens == 0
  {
    hide Reachable, Hall, Post;
    Start();
    var idle, up := Tally(credits := 1, tracked := 1), Tally(connections := 1, served := 1);
    shared := Listen(idle, Accepting, Accept(None), Acted(Listener(Added(0, None)), [], up));
    OneUp(idle, up);
  }

  lemma OneUp(shared: Tally, delta: Tally)
    requires shared.pending + delta.pending >= 0
    ensures Post(shared, delta) == Plus(shared, delta)
  {
  }

  lemma Admission() returns (shared: Tally)
    ensures Reachable(CFG, Hall(shared, Admitted(None)))
    ensures shared.credits == 1 && shared.pending == 0 && shared.tracked == 1
    ensures shared.connections == 1 && shared.opens == 0
  {
    hide Reachable, Hall, Post;
    var before := Greeting();
    shared := Listen(before, Added(0, None), CheckLimit, Acted(Listener(Admitted(None)), [], ZERO_TALLY));
    OneUp(before, ZERO_TALLY);
  }

  /** One accept loop and one connection. */
  function World(shared: Tally, t: StreamListener, c: Conn, cancelled: bool): System {
    System(shared, [Listener(t), Serving(c)], cancelled, false, None, 0)
  }

  lemma Connected() returns (shared: Tally)
    ensures Reachable(CFG, World(shared, Accepting, NewConn(CFG, None), false)) && Quietly(shared, 2)
  {
    hide Reachable, NewConn;
    var admitted := Admission();
    var count := ListenerNext(CFG, Env(false, admitted), Admitted(None), CountOpened).value;
    var counted := Listen(admitted, Admitted(None), CountOpened, count);
    var s := Hall(counted, Opened(None));
    shared := Post(counted, Tally(tracked := 1));
    assert s.tasks[0 := Listener(Accepting)] + [Serving(NewConn(CFG, None))]
        == [Listener(Accepting), Serving(NewConn(CFG, None))];
    Onwards(s, At(0, ListenerDo(SpawnStream)));
  }

  // ------------------------------------------------------------------------- the connection

  /** One step of the connection's reader. */
  lemma Serve(shared: Tally, c: Conn, l: ReaderStep) returns (after: Tally, d: Conn)
    requires Reachable(CFG, World(shared, Accepting, c, false))
    requires ReaderNext(CFG, Env(false, shared), c, l).Some?
    ensures Reachable(CFG, World(after, Accepting, d, false))
    ensures var m := ReaderNext(CFG, Env(false, shared), c, l).value; after == Post(shared, m.delta) && d == m.next
  {
    hide Reachable, ReaderNext, Post;
    var m := ReaderNext(CFG, Env(false, shared), c, l).value;
    after, d := Post(shared, m.delta), m.next;
    var s := World(shared, Accepting, c, false);
    assert s.tasks[1 := Serving(d)] + [] == [Listener(Accepting), Serving(d)];
    Onwards(s, At(1, ReaderDo(l)));
  }

  /** Idle between two reads, with nothing decoded yet. */
  predicate Between(c: Conn) {
    c.reader.Reading? && !c.eof && c.courier.Receiving? && c.channel == [] && !c.workersGone && c.settled == []
  }

  lemma EmptyCall()
    ensures DecodeTurn(3, false, FRESH, []) == Turn(More, FRESH, [])
  {
  }

  lemma Listening() returns (shared: Tally, c: Conn)
    ensures Reachable(CFG, World(shared, Accepting, c, false)) && Quietly(shared, 2)
    ensures Between(c) && c.buffer == [] && c.framer == FRESH
  {
    hide Reachable, World, DecodeTurn;
    var before := Connected();
    EmptyCall();
    shared, c := Serve(before, NewConn(CFG, None), Decode);
  }

  /** The connection has read "aaaa\n1" and skipped the line; the digit is searched. */
  lemma FirstPart() returns (shared: Tally, c: Conn)
    ensures Reachable(CFG, World(shared, Accepting, c, false)) && Quietly(shared, 2)
    ensures Between(c) && c.buffer == [0x31] && c.framer == FramerState(None, LineState(false, 1))
  {
    hide Reachable, World, DecodeTurn;
    shared, c := Listening();
    assert [] + SKIPPED_THEN_ONE == SKIPPED_THEN_ONE;
    FirstCalls();
    shared, c := Serve(shared, c, Data(SKIPPED_THEN_ONE));
    shared, c := Serve(shared, c, Decode);
    shared, c := Serve(shared, c, Decode);
  }

  /** It has read " b" and decoded "b". */
  lemma SecondPart() returns (shared: Tally, c: Conn)
    ensures Reachable(CFG, World(shared, Accepting, c, false)) && Quietly(shared, 2)
    ensures Between(c.(reader := Reading)) && c.reader == WantCredit([0x62])
    ensures c.buffer == [] && c.framer == FramerState(None, LineState(false, 1))
  {
    hide Reachable, World, DecodeTurn;
    shared, c := FirstPart();
    CountRead([]);
    assert [0x31] + REST_OF_COUNT + [] == [0x31] + REST_OF_COUNT;
    shared, c := Serve(shared, c, Data(REST_OF_COUNT));
    shared, c := Serve(shared, c, Decode);
  }

  /** The message has its id and its permit. */
  lemma Named() returns (shared: Tally, c: Conn)
    ensures Reachable(CFG, World(shared, Accepting, c, false))
    ensures shared.pending == 0 && shared.tracked == 2 && shared.connections == shared.opens
    ensures Between(c.(reader := Reading)) && c.reader.HaveId? && c.reader.msg.body == [0x62]
    ensures c.buffer == [] && c.framer == FramerState(None, LineState(false, 1))
  {
    hide Reachable, World, DecodeNext, InputNext;
    shared, c := SecondPart();
    shared, c := Serve(shared, c, Acquire);
    shared, c := Serve(shared, c, AssignId);
  }

  /** It is in the channel. */
  lemma HandedOver() returns (shared: Tally, c: Conn)
    ensures Reachable(CFG, World(shared, Accepting, c, false))
    ensures shared.pending == 1 && shared.tracked == 2 && shared.connections == shared.opens
    ensures c.reader.Decoding? && !c.eof && |c.channel| == 1 && c.channel[0].body == [0x62]
    ensures c.buffer == [] && c.framer == FramerState(None, LineState(false, 1))
  {
    hide Reachable, World, DecodeNext, InputNext;
    shared, c := Named();
    shared, c := Serve(shared, c, GaugeUp);
    shared, c := Serve(shared, c, Send);
  }

  lemma PanicCall()
    ensures DecodeTurn(3, false, FramerState(None, LineState(false, 1)), []).out == Panic
  {
  }

  /** The reader has panicked and unwound. */
  lemma FellOver() returns (shared: Tally, c: Conn)
    ensures Reachable(CFG, World(shared, Accepting, c, false))
    ensures shared.pending == 1 && shared.tracked == 1 && shared.connections == shared.opens
    ensures c.reader.Crashed? && |c.channel| == 1 && c.channel[0].body == [0x62]
  {
    hide Reachable, World, DecodeTurn;
    shared, c := HandedOver();
    PanicCall();
    shared, c := Serve(shared, c, Decode);
    shared, c := Serve(shared, c, Unwind);
  }

  /** Drain can come back early. In some reachable state of some server nothing is
      tracked, no drain has timed out, and yet a message is pending in the channel of a
      crashed connection, which is still counted as open. */
  lemma DrainLeavesMessage() returns (s: System)
    ensures Reachable(CFG, s) && s.cancelled && !s.timedOut && s.shared.tracked == 0
    ensures s.shared.pending == 1 && !Guarantees.NoneOrphaned(s.tasks)
    ensures Guarantees.HowMany(Guarantees.IsCrashed, s.tasks) == 1
  {
    hide Reachable;
    var shared, c := FellOver();
    var before := World(shared, Accepting, c, false);
    Onwards(before, Cancel);
    var asked := World(shared, Accepting, c, true);
    assert Next(CFG, before, Cancel) == Some(asked);
    Onwards(asked, At(0, ListenerDo(StopListening)));
    s := World(Post(shared, Tally(tracked := -1)), Stopped, c, true);
    assert asked.tasks[0 := Listener(Stopped)] + [] == [Listener(Stopped), Serving(c)];
    assert Next(CFG, asked, At(0, ListenerDo(StopListening))) == Some(s);
    assert Guarantees.Orphaned(s.tasks[1]);
    assert s.tasks[..1] == [Listener(Stopped)] && [Listener(Stopped)][..0] == [];
  }
}
