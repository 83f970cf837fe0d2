/** How a request reaches the worker queue: one attempt, then polling with short
    sleeps until there is room, the queue is gone or the wait is over. */
module Handoff {
  import opened Channels

  const DELAY_MS: nat := 10

  /** What the client is told, or that the request is queued and its answer awaited. */
  datatype Outcome = Queued | TooManyRequests | ShuttingDown

  /** What others do to the channel while a poller sleeps: workers take some requests,
      other connections queue theirs, the last worker may go. */
  datatype Interlude = Interlude(takes: nat, arrivals: seq<Request>, closes: bool)

  /** A queue after an interlude: some requests taken, then as many arrivals as fit. */
  function Meanwhile(capacity: nat, queue: seq<Request>, turn: Interlude): seq<Request> {
    var kept := if turn.takes <= |queue| then queue[turn.takes..] else [];
    var room := if |kept| < capacity then capacity - |kept| else 0;
    kept + if |turn.arrivals| <= room then turn.arrivals else turn.arrivals[..room]
  }

  method Interfere(channel: Channel, turn: Interlude)
    modifies channel
    ensures channel.items == Meanwhile(channel.capacity, old(channel.items), turn)
    ensures channel.heard == (old(channel.heard) && !turn.closes)
    ensures exists fit: seq<Request> :: fit <= turn.arrivals && channel.Accepted() == old(channel.Accepted()) + fit
  {
    var queue := channel.items;
    var n := if turn.takes <= |queue| then turn.takes else |queue|;
    assert channel.taken + queue == (channel.taken + queue[..n]) + queue[n..];
    channel.taken, queue := channel.taken + queue[..n], queue[n..];
    var room := if |queue| < channel.capacity then channel.capacity - |queue| else 0;
    var k := if |turn.arrivals| <= room then |turn.arrivals| else room;
    var fit := turn.arrivals[..k];
    assert channel.taken + (queue + fit) == (channel.taken + queue) + fit;
    channel.items := queue + fit;
    channel.heard := channel.heard && !turn.closes;
    assert channel.Accepted() == old(channel.Accepted()) + fit;
  }

  // ------------------------------------------------------------------- what a poller meets

  /** All that decides the answer: the channel as it is at the first attempt, what others
      do during each sleep, the time when each sleep is over, and the timeout. */
  datatype Scene = Scene(
    capacity: nat,
    items: seq<Request>,
    heard: bool,
    turns: nat -> Interlude,
    clock: nat -> nat,
    timeout: nat)

  /** The queue at attempt `k`, if no earlier attempt put anything in it. */
  function QueueAt(s: Scene, k: nat): seq<Request> {
    if k == 0 then s.items else Meanwhile(s.capacity, QueueAt(s, k - 1), s.turns(k - 1))
  }

  /** A worker is left at attempt `k`. */
  predicate HeardAt(s: Scene, k: nat) {
    if k == 0 then s.heard else HeardAt(s, k - 1) && !s.turns(k - 1).closes
  }

  predicate RoomAt(s: Scene, k: nat) {
    HeardAt(s, k) && |QueueAt(s, k)| < s.capacity
  }

  predicate FullAt(s: Scene, k: nat) {
    HeardAt(s, k) && |QueueAt(s, k)| >= s.capacity
  }

  /** Attempt `k` is made: it is the first, or all before it found the queue full and the
      timeout had not passed when it was decided to sleep once more. */
  predicate Tried(s: Scene, k: nat) {
    && (k > 0 ==> s.clock(k - 1) < s.timeout)
    && forall j: nat | j < k :: FullAt(s, j)
  }

  /** The answer, and the attempt that brought it. */
  predicate Answers(s: Scene, outcome: Outcome, retries: nat) {
    && Tried(s, retries)
    && match outcome
       case Queued => RoomAt(s, retries)
       case ShuttingDown => !HeardAt(s, retries)
       case TooManyRequests => FullAt(s, retries) && s.clock(retries) >= s.timeout
  }

  lemma {:induction false} ClockMonotone(clock: nat -> nat, j: nat, k: nat)
    requires Ticks(clock) && j <= k
    ensures clock(j) <= clock(k)
    decreases k
  {
    if j < k {
      ClockMonotone(clock, j, k - 1);
      assert clock((k - 1) + 1) >= clock(k - 1) + DELAY_MS;
    }
  }

  /** The answer is settled by the scene. A request is queued if and only if some attempt
      that is made finds room, at the first such attempt; it is told that the server is
      shutting down if and only if one finds no worker left; and it is told 429 if and
      only if one that still finds the queue full is over the timeout. */
  lemma AnswersExactly(s: Scene, outcome: Outcome, retries: nat)
    requires Ticks(s.clock) && Answers(s, outcome, retries)
    ensures outcome.Queued? <==> exists k: nat :: Tried(s, k) && RoomAt(s, k)
    ensures outcome.ShuttingDown? <==> exists k: nat :: Tried(s, k) && !HeardAt(s, k)
    ensures outcome.TooManyRequests? <==> exists k: nat :: Tried(s, k) && FullAt(s, k) && s.clock(k) >= s.timeout
    ensures forall k: nat | Tried(s, k) && !FullAt(s, k) :: k == retries
  {
    forall k: nat | Tried(s, k) && (!FullAt(s, k) || s.clock(k) >= s.timeout) ensures k == retries {
      if k < retries {
        assert FullAt(s, k);
        ClockMonotone(s.clock, k, retries - 1);
      } else if retries < k {
        assert FullAt(s, retries);
        ClockMonotone(s.clock, retries, k - 1);
      }
    }
  }

  // ------------------------------------------------------------------------------ the poller

  function Copies(s: seq<Request>, r: Request): nat {
    multiset(s)[r]
  }

  lemma CopiesAppend(s: seq<Request>, t: seq<Request>, r: Request)
    ensures Copies(s + t, r) == Copies(s, r) + Copies(t, r)
  {
    assert multiset(s + t) == multiset(s) + multiset(t);
  }

  lemma NoCopies(s: seq<Request>, r: Request)
    requires r !in s
    ensures Copies(s, r) == 0
  {
  }

  /** Sleeps last at least as long as asked: `clock(k)` is the time since the first
      full attempt when the k-th sleep is over. */
  ghost predicate Ticks(clock: nat -> nat) {
    forall k: nat :: clock(k + 1) >= clock(k) + DELAY_MS
  }

  /** One round of the polling loop: sleep while others use the channel, then try again. */
  method TryAgain(channel: Channel, r: Request, turn: Interlude) returns (sent: Sent)
    requires r !in turn.arrivals
    modifies channel
    ensures var queue := Meanwhile(channel.capacity, old(channel.items), turn);
            && channel.heard == (old(channel.heard) && !turn.closes)
            && sent == (if !channel.heard then Disconnected else if |queue| < channel.capacity then Done else Full)
            && channel.items == queue + if sent.Done? then [r] else []
    ensures Copies(channel.Accepted(), r) == old(Copies(channel.Accepted(), r)) + if sent.Done? then 1 else 0
  {
    hide Meanwhile, Copies;
    Interfere(channel, turn);
    ghost var fit :| fit <= turn.arrivals && channel.Accepted() == old(channel.Accepted()) + fit;
    NoCopies(fit, r);
    CopiesAppend(old(channel.Accepted()), fit, r);
    label awake:
    sent := channel.TrySend(r);
    CopiesAppend(old@awake(channel.Accepted()), if sent.Done? then [r] else [], r);
    OneCopy(r);
  }

  lemma OneCopy(r: Request)
    ensures Copies([r], r) == 1 && Copies([], r) == 0
  {
  }

  /** The queueing part of `handle_request`. Whatever the others do, the answer is the
      one the scene settles; the request is queued exactly once if its answer is awaited,
      behind what is queued then, and otherwise never, so no worker can see a request
      that was answered 429; and it is retried at most once for each ten milliseconds of
      the timeout. */
  method HandOff(channel: Channel, r: Request, timeout: nat, turns: nat -> Interlude, clock: nat -> nat)
    returns (outcome: Outcome, retries: nat)
    requires Ticks(clock) && forall k: nat :: r !in turns(k).arrivals
    modifies channel
    ensures var s := Scene(channel.capacity, old(channel.items), old(channel.heard), turns, clock, timeout);
            && Answers(s, outcome, retries)
            && channel.items == QueueAt(s, retries) + if outcome.Queued? then [r] else []
    ensures Copies(channel.Accepted(), r) == old(Copies(channel.Accepted(), r)) + if outcome.Queued? then 1 else 0
    ensures retries <= (timeout + 9) / 10
  {
    hide Meanwhile, Copies;
    ghost var s := Scene(channel.capacity, channel.items, channel.heard, turns, clock, timeout);
    retries := 0;
    var sent := channel.TrySend(r);
    CopiesAppend(old(channel.Accepted()), if sent.Done? then [r] else [], r);
    OneCopy(r);
    while sent.Full?
      invariant Tried(s, retries)
      invariant sent == if !HeardAt(s, retries) then Disconnected else if RoomAt(s, retries) then Done else Full
      invariant channel.heard == HeardAt(s, retries)
      invariant channel.items == QueueAt(s, retries) + if sent.Done? then [r] else []
      invariant Copies(channel.Accepted(), r) == old(Copies(channel.Accepted(), r)) + if sent.Done? then 1 else 0
      decreases if sent.Full? then 1 else 0, timeout - clock(retries)
    {
      assert FullAt(s, retries) && channel.items == QueueAt(s, retries);
      if clock(retries) >= timeout {
        Rounding(retries, timeout, clock);
        return TooManyRequests, retries;
      }
      assert clock(retries + 1) >= clock(retries) + DELAY_MS;
      sent := TryAgain(channel, r, turns(retries));
      retries := retries + 1;
    }
    Rounding(retries, timeout, clock);
    outcome := if sent.Done? then Queued else ShuttingDown;
  }

  lemma Rounding(retries: nat, timeout: nat, clock: nat -> nat)
    requires Ticks(clock) && (retries > 0 ==> clock(retries - 1) < timeout)
    ensures retries <= (timeout + 9) / 10
  {
    if retries > 0 {
      ClockRuns(clock, retries - 1);
    }
  }

  lemma {:induction false} ClockRuns(clock: nat -> nat, k: nat)
    requires Ticks(clock)
    ensures clock(k) >= DELAY_MS * k
  {
    if k > 0 {
      ClockRuns(clock, k - 1);
      assert clock((k - 1) + 1) >= clock(k - 1) + DELAY_MS;
    }
  }
}
