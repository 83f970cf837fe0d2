/** How a Ruby worker picks between queued requests and syslog messages. */
module Scheduler {
  import opened Bytes
  import opened Channels

  datatype WorkItem = Http(request: Request) | Syslog(delivery: Delivery)

  /** `syslog_streak` is a `u32`. */
  const STREAK_LIMIT: nat := 0x1_0000_0000

  type Ratio = r: nat | r < STREAK_LIMIT witness 4

  function Bump(streak: nat): (r: nat)
    ensures r <= streak + 1
    ensures streak + 1 < STREAK_LIMIT ==> r == streak + 1
  {
    (streak + 1) % STREAK_LIMIT
  }

  // -------------------------------------------------------------------- one whole call

  /** What the blocking select woke up with. */
  datatype Selected = Woke(item: WorkItem) | Hangup

  datatype Call = Call(item: Option<WorkItem>, streak: nat, http: Queue, syslog: Queue)

  function TakeRequest(http: Queue, syslog: Queue): Call
    requires http.items != []
  {
    Call(Some(Http(http.items[0])), 0, Pop(http), syslog)
  }

  function TakeDelivery(http: Queue, syslog: Queue, streak: nat): Call
    requires syslog.items != []
  {
    Call(Some(Syslog(syslog.items[0])), Bump(streak), http, Pop(syslog))
  }

  /** What a call returns when nothing else runs meanwhile: a queued delivery while the
      streak is below the ratio, else a queued request, else a queued delivery; a
      closed empty channel stops the worker when it is reached. */
  function Pick(http: Queue, syslog: Queue, streak: nat, ratio: nat, woke: Selected): Call {
    var stop := Call(None, streak, http, syslog);
    if streak < ratio && syslog.items != [] then TakeDelivery(http, syslog, streak)
    else if streak < ratio && !syslog.open then stop
    else if http.items != [] then TakeRequest(http, syslog)
    else if !http.open then stop
    else if syslog.items != [] then TakeDelivery(http, syslog, streak)
    else if !syslog.open then stop
    else
      match woke
      case Hangup => stop
      case Woke(Http(r)) => Call(Some(Http(r)), 0, http, syslog)
      case Woke(Syslog(d)) => Call(Some(Syslog(d)), Bump(streak), http, syslog)
  }

  datatype TryWork = Found(item: WorkItem) | Empty | Closed

  class Worker {
    var syslogStreak: nat

    constructor ()
      ensures syslogStreak == 0
    {
      syslogStreak := 0;
    }

    method TryHttp(work: Channel) returns (outcome: TryWork)
      modifies work
      ensures old(work.items) != [] ==>
                outcome == Found(Http(old(work.items)[0])) && work.Contents() == Pop(old(work.Contents()))
      ensures old(work.items) == [] ==>
                outcome == (if work.open then Empty else Closed) && work.Contents() == old(work.Contents())
    {
      var item, closed := work.TryRecv();
      outcome := if item.Some? then Found(Http(item.value)) else if closed then Closed else Empty;
    }

    method TrySyslog(work: Channel) returns (outcome: TryWork)
      modifies work
      ensures old(work.items) != [] ==>
                outcome == Found(Syslog(old(work.items)[0])) && work.Contents() == Pop(old(work.Contents()))
      ensures old(work.items) == [] ==>
                outcome == (if work.open then Empty else Closed) && work.Contents() == old(work.Contents())
    {
      var item, closed := work.TryRecv();
      outcome := if item.Some? then Found(Syslog(item.value)) else if closed then Closed else Empty;
    }

    method CountWorkItem(outcome: TryWork) returns (item: Option<WorkItem>)
      modifies this
      ensures item == (if outcome.Found? then Some(outcome.item) else None)
      ensures syslogStreak == if !outcome.Found? then old(syslogStreak)
                              else if outcome.item.Http? then 0 else Bump(old(syslogStreak))
    {
      if outcome.Found? {
        syslogStreak := if outcome.item.Http? then 0 else Bump(syslogStreak);
        return Some(outcome.item);
      }
      return None;
    }

    method NextWorkItem(work: Channel, syslog: Channel, ratio: nat, woke: Selected) returns (item: Option<WorkItem>)
      requires work != syslog
      modifies this, work, syslog
      ensures Call(item, syslogStreak, work.Contents(), syslog.Contents())
              == Pick(old(work.Contents()), old(syslog.Contents()), old(syslogStreak), ratio, woke)
    {
      var syslogFirst := syslogStreak < ratio;
      var outcome;
      if syslogFirst {
        outcome := TrySyslog(syslog);
        if !outcome.Empty? {
          item := CountWorkItem(outcome);
          return;
        }
      }
      outcome := TryHttp(work);
      if !outcome.Empty? {
        item := CountWorkItem(outcome);
        return;
      }
      if !syslogFirst {
        outcome := TrySyslog(syslog);
        if !outcome.Empty? {
          item := CountWorkItem(outcome);
          return;
        }
      }
      if woke.Woke? {
        item := CountWorkItem(Found(woke.item));
      } else {
        item := None;
      }
    }
  }

  // ---------------------------------------------------------- many workers, interleaved

  /** Which channel operation of a call comes next. */
  datatype Phase = Idle | First | Second | Third | Blocked | Stopped

  /** A worker, and since the mark: whether its current call began after it, how many
      such calls it completed, how many of them took a request or a delivery, and how
      often its first look found no delivery. */
  datatype Hand = Hand(
    streak: nat,
    phase: Phase,
    recent: bool,
    calls: nat,
    requests: nat,
    deliveries: nat,
    missed: nat)

  /** The channels and the workers; `popped` and `given` are the requests and deliveries
      taken since the mark. */
  datatype Shop = Shop(http: Queue, syslog: Queue, hands: seq<Hand>, popped: seq<Request>, given: seq<Delivery>)

  datatype Move =
    | Ask(request: Request)             // a request is queued
    | Tell(delivery: Delivery)          // a delivery is queued
    | HangUp(onRequests: bool)          // a channel loses its last sender
    | Step(w: nat)                      // a worker's next operation
    | Wake(w: nat, forRequest: bool)    // the blocking select of a worker

  function GotRequest(h: Hand): Hand {
    var n := if h.recent then 1 else 0;
    h.(streak := 0, phase := Idle, calls := h.calls + n, requests := h.requests + n)
  }

  function GotDelivery(h: Hand): Hand {
    var n := if h.recent then 1 else 0;
    h.(streak := Bump(h.streak), phase := Idle, calls := h.calls + n, deliveries := h.deliveries + n)
  }

  function Enter(s: Shop, w: nat, phase: Phase): Shop
    requires w < |s.hands|
  {
    s.(hands := s.hands[w := s.hands[w].(phase := phase)])
  }

  function PopRequest(s: Shop, w: nat): Shop
    requires w < |s.hands| && s.http.items != []
  {
    s.(hands := s.hands[w := GotRequest(s.hands[w])], http := Pop(s.http), popped := s.popped + [s.http.items[0]])
  }

  function PopDelivery(s: Shop, w: nat): Shop
    requires w < |s.hands| && s.syslog.items != []
  {
    s.(hands := s.hands[w := GotDelivery(s.hands[w])], syslog := Pop(s.syslog), given := s.given + [s.syslog.items[0]])
  }

  /** One channel operation of worker `w`, or the start of a call. */
  function HandNext(ratio: nat, s: Shop, w: nat): Option<Shop>
    requires w < |s.hands|
  {
    var h := s.hands[w];
    match h.phase
    case Idle =>
      Some(s.(hands := s.hands[w := h.(phase := if h.streak < ratio then First else Second, recent := true)]))
    case First =>
      if s.syslog.items != [] then Some(PopDelivery(s, w))
      else if !s.syslog.open then Some(Enter(s, w, Stopped))
      else Some(s.(hands := s.hands[w := h.(phase := Second, missed := h.missed + if h.recent then 1 else 0)]))
    case Second =>
      if s.http.items != [] then Some(PopRequest(s, w))
      else Some(Enter(s, w, if !s.http.open then Stopped else if h.streak < ratio then Blocked else Third))
    case Third =>
      if s.syslog.items != [] then Some(PopDelivery(s, w))
      else Some(Enter(s, w, if !s.syslog.open then Stopped else Blocked))
    case Blocked => None
    case Stopped => None
  }

  /** The select returns for a channel that has something or has lost its senders. */
  function WakeNext(s: Shop, w: nat, forRequest: bool): Option<Shop>
    requires w < |s.hands|
  {
    if !s.hands[w].phase.Blocked? then None
    else if forRequest && s.http.items != [] then Some(PopRequest(s, w))
    else if !forRequest && s.syslog.items != [] then Some(PopDelivery(s, w))
    else if Drained(if forRequest then s.http else s.syslog) then Some(Enter(s, w, Stopped))
    else None
  }

  function MoveNext(ratio: nat, s: Shop, m: Move): Option<Shop> {
    match m
    case Ask(r) => if s.http.open then Some(s.(http := s.http.(items := s.http.items + [r]))) else None
    case Tell(d) => if s.syslog.open then Some(s.(syslog := s.syslog.(items := s.syslog.items + [d]))) else None
    case HangUp(true) => Some(s.(http := s.http.(open := false)))
    case HangUp(false) => Some(s.(syslog := s.syslog.(open := false)))
    case Step(w) => if w < |s.hands| then HandNext(ratio, s, w) else None
    case Wake(w, forRequest) => if w < |s.hands| then WakeNext(s, w, forRequest) else None
  }

  function Play(ratio: nat, s: Shop, run: seq<Move>): Option<Shop>
    decreases |run|
  {
    if run == [] then Some(s)
    else
      match Play(ratio, s, run[..|run| - 1])
      case None => None
      case Some(before) => MoveNext(ratio, before, run[|run| - 1])
  }

  /** The moment counting starts: calls under way do not count. */
  predicate Marked(s: Shop) {
    && s.popped == []
    && forall w | 0 <= w < |s.hands| ::
         var h := s.hands[w];
         !h.recent && h.calls == h.requests == h.deliveries == h.missed == 0
  }

  // ------------------------------------------------------------------- a worker alone

  lemma PlayOn(ratio: nat, s: Shop, run: seq<Move>, m: Move)
    requires Play(ratio, s, run).Some?
    ensures Play(ratio, s, run + [m]) == MoveNext(ratio, Play(ratio, s, run).value, m)
  {
    assert (run + [m])[..|run|] == run;
  }

  /** Worker `w` has come out of a call as `Pick` says of one made in state `s`. */
  predicate LikePick(s: Shop, call: Call, w: nat, end: Shop) {
    && |end.hands| == |s.hands| && w < |s.hands|
    && end.http.items == call.http.items && end.syslog.items == call.syslog.items
    && end.hands[w].streak == call.streak
    && end.hands[w].phase == (if call.item.Some? then Idle else Stopped)
    && end.popped == s.popped + (if call.item.Some? && call.item.value.Http? then [call.item.value.request] else [])
    && end.given == s.given + if call.item.Some? && call.item.value.Syslog? then [call.item.value.delivery] else []
  }

  /** Both channels open and empty, and the worker at its select. */
  predicate AtSelect(s: Shop, w: nat, end: Shop) {
    && w < |s.hands| && end.http == s.http == Queue([], true) && end.syslog == s.syslog == Queue([], true)
    && |end.hands| == |s.hands| && end.popped == s.popped && end.given == s.given
    && end.hands[w].phase.Blocked? && end.hands[w].streak == s.hands[w].streak
  }

  lemma StepsAlone(ratio: nat, s: Shop, w: nat, woke: Selected) returns (run: seq<Move>)
    requires w < |s.hands| && s.hands[w].phase.Idle?
    ensures Play(ratio, s, run).Some?
    ensures var end := Play(ratio, s, run).value;
            AtSelect(s, w, end) || LikePick(s, Pick(s.http, s.syslog, s.hands[w].streak, ratio, woke), w, end)
  {
    hide Play;
    PlayNothing(ratio, s);
    PlayOn(ratio, s, [], Step(w));
    PlayOn(ratio, s, [] + [Step(w)], Step(w));
    run := [] + [Step(w)] + [Step(w)];
    var two := Play(ratio, s, run).value;
    if !two.hands[w].phase.Idle? && !two.hands[w].phase.Stopped? {
      PlayOn(ratio, s, run, Step(w));
      run := run + [Step(w)];
    }
  }

  lemma PlayNothing(ratio: nat, s: Shop)
    ensures Play(ratio, s, []) == Some(s)
  {
  }

  /** What someone else does for the select to wake with `woke`. */
  function Cause(woke: Selected): Move {
    match woke
    case Woke(Http(r)) => Ask(r)
    case Woke(Syslog(d)) => Tell(d)
    case Hangup => HangUp(true)
  }

  lemma SelectAlone(ratio: nat, s: Shop, w: nat, woke: Selected, mid: Shop, run: seq<Move>)
    requires AtSelect(s, w, mid) && Play(ratio, s, run) == Some(mid)
    ensures var end := Play(ratio, s, run + [Cause(woke)] + [Wake(w, !Cause(woke).Tell?)]);
            end.Some? && LikePick(s, Pick(s.http, s.syslog, s.hands[w].streak, ratio, woke), w, end.value)
  {
    hide Play;
    var wake := Wake(w, !Cause(woke).Tell?);
    PlayOn(ratio, s, run, Cause(woke));
    PlayOn(ratio, s, run + [Cause(woke)], wake);
  }

  /** A worker left alone makes the very choice of `Pick`, whatever is queued and
      whichever channels are still open; one that has to wait comes out of the select
      as `Pick` says of what it woke up with. */
  lemma AloneLikePick(ratio: nat, s: Shop, w: nat, woke: Selected) returns (run: seq<Move>)
    requires w < |s.hands| && s.hands[w].phase.Idle?
    ensures Play(ratio, s, run).Some?
    ensures LikePick(s, Pick(s.http, s.syslog, s.hands[w].streak, ratio, woke), w, Play(ratio, s, run).value)
  {
    hide Play, Pick, LikePick, AtSelect;
    run := StepsAlone(ratio, s, w, woke);
    var mid := Play(ratio, s, run).value;
    if AtSelect(s, w, mid) {
      SelectAlone(ratio, s, w, woke, mid, run);
      run := run + [Cause(woke)] + [Wake(w, !Cause(woke).Tell?)];
    }
  }

  // ------------------------------------------------------------------------- first in, first out

  /** The requests queued along a run, and the deliveries. */
  function Asked(run: seq<Move>): seq<Request> {
    if run == [] then []
    else Asked(run[..|run| - 1]) + if run[|run| - 1].Ask? then [run[|run| - 1].request] else []
  }

  function Told(run: seq<Move>): seq<Delivery> {
    if run == [] then []
    else Told(run[..|run| - 1]) + if run[|run| - 1].Tell? then [run[|run| - 1].delivery] else []
  }

  lemma MoveKeepsQueues(ratio: nat, s: Shop, m: Move)
    requires MoveNext(ratio, s, m).Some?
    ensures var next := MoveNext(ratio, s, m).value;
            && next.popped + next.http.items == s.popped + s.http.items + (if m.Ask? then [m.request] else [])
            && next.given + next.syslog.items == s.given + s.syslog.items + if m.Tell? then [m.delivery] else []
  {
    var next := MoveNext(ratio, s, m).value;
    if next.popped != s.popped {
      assert (s.popped + [s.http.items[0]]) + s.http.items[1..] == s.popped + s.http.items;
    }
    if next.given != s.given {
      assert (s.given + [s.syslog.items[0]]) + s.syslog.items[1..] == s.given + s.syslog.items;
    }
  }

  /** First in, first out. Along every run, however the workers interleave, requests are
      taken in the order in which they were queued, none lost and none twice, and so are
      deliveries. */
  lemma {:induction false} FirstInFirstOut(ratio: nat, s: Shop, run: seq<Move>)
    requires Play(ratio, s, run).Some?
    ensures var end := Play(ratio, s, run).value;
            && end.popped + end.http.items == s.popped + s.http.items + Asked(run)
            && end.given + end.syslog.items == s.given + s.syslog.items + Told(run)
    decreases |run|
  {
    hide MoveNext;
    if run != [] {
      var before := run[..|run| - 1];
      FirstInFirstOut(ratio, s, before);
      MoveKeepsQueues(ratio, Play(ratio, s, before).value, run[|run| - 1]);
    }
  }

  // ------------------------------------------------------------------- workers that stop

  /** A worker has stopped only if one of the channels is drained. */
  predicate StopsRightly(s: Shop) {
    forall w | 0 <= w < |s.hands| && s.hands[w].phase.Stopped? :: Drained(s.http) || Drained(s.syslog)
  }

  lemma MoveStopsRightly(ratio: nat, s: Shop, m: Move)
    requires StopsRightly(s) && MoveNext(ratio, s, m).Some?
    ensures StopsRightly(MoveNext(ratio, s, m).value)
    ensures Drained(s.http) ==> Drained(MoveNext(ratio, s, m).value.http)
    ensures Drained(s.syslog) ==> Drained(MoveNext(ratio, s, m).value.syslog)
  {
  }

  /** Workers stop when work has run out: along every run from a state where all are
      running, one that has stopped leaves a channel without senders and with nothing
      queued. As long as the syslog channel has a sender that is the request channel,
      so no request is left behind. */
  lemma {:induction false} StopsDrained(ratio: nat, s: Shop, run: seq<Move>)
    requires Play(ratio, s, run).Some? && forall w | 0 <= w < |s.hands| :: !s.hands[w].phase.Stopped?
    ensures var end := Play(ratio, s, run).value;
            && StopsRightly(end)
            && (end.syslog.open ==>
                  forall w | 0 <= w < |end.hands| && end.hands[w].phase.Stopped? :: Drained(end.http))
    decreases |run|
  {
    hide MoveNext;
    if run != [] {
      StopsDrained(ratio, s, run[..|run| - 1]);
      MoveStopsRightly(ratio, Play(ratio, s, run[..|run| - 1]).value, run[|run| - 1]);
    }
  }

  /** With a request queued, a call alone stops the worker if and only if it looks for
      deliveries first and the syslog channel is drained. */
  lemma PickStopsExactly(http: Queue, syslog: Queue, streak: nat, ratio: nat, woke: Selected)
    requires http.items != []
    ensures Pick(http, syslog, streak, ratio, woke).item.None? <==> streak < ratio && Drained(syslog)
  {
  }

  /** Worker `w` is about to find the syslog channel drained: at its first or its third
      look, or at the select. */
  predicate HitsDrained(s: Shop, m: Move, w: nat)
    requires w < |s.hands|
  {
    && Drained(s.syslog)
    && match m
       case Step(v) => v == w && (s.hands[w].phase.First? || s.hands[w].phase.Third?)
       case Wake(v, forRequest) => v == w && !forRequest && s.hands[w].phase.Blocked?
       case _ => false
  }

  /** Of workers interleaved: while a request is queued, a move stops a worker if and
      only if that worker's next operation finds the syslog channel drained. */
  lemma MoveStopsExactly(ratio: nat, s: Shop, m: Move, w: nat)
    requires MoveNext(ratio, s, m).Some? && s.http.items != [] && w < |s.hands|
    ensures var next := MoveNext(ratio, s, m).value;
            && w < |next.hands|
            && (next.hands[w].phase.Stopped? <==> s.hands[w].phase.Stopped? || HitsDrained(s, m, w))
  {
  }

  /** A worker runs in `s` and not in `next`, and a request was queued. */
  predicate StopsOne(s: Shop, next: Shop) {
    s.http.items != []
    && exists w | 0 <= w < |s.hands| && w < |next.hands| ::
         !s.hands[w].phase.Stopped? && next.hands[w].phase.Stopped?
  }

  predicate HitsOne(s: Shop, m: Move) {
    s.http.items != [] && exists w | 0 <= w < |s.hands| :: HitsDrained(s, m, w)
  }

  /** Somewhere along the run a worker stops while a request is queued. */
  predicate Abandons(ratio: nat, s: Shop, run: seq<Move>)
    requires Play(ratio, s, run).Some?
    decreases |run|
  {
    run != []
    && var before := run[..|run| - 1];
       Abandons(ratio, s, before) || StopsOne(Play(ratio, s, before).value, Play(ratio, s, run).value)
  }

  /** Somewhere along the run, with a request queued, a worker's next operation is to
      find the syslog channel drained. */
  predicate MeetsDrained(ratio: nat, s: Shop, run: seq<Move>)
    requires Play(ratio, s, run).Some?
    decreases |run|
  {
    run != []
    && var before := run[..|run| - 1];
       MeetsDrained(ratio, s, before) || HitsOne(Play(ratio, s, before).value, run[|run| - 1])
  }

  /** Whole runs: a worker stops with a request queued if and only if one meets a drained
      syslog channel with a request queued. */
  lemma {:induction false} AbandonsExactly(ratio: nat, s: Shop, run: seq<Move>)
    requires Play(ratio, s, run).Some?
    ensures Abandons(ratio, s, run) <==> MeetsDrained(ratio, s, run)
    decreases |run|
  {
    hide MoveNext, StopsOne, HitsOne;
    if run != [] {
      var before, last := run[..|run| - 1], run[|run| - 1];
      AbandonsExactly(ratio, s, before);
      StopsWhenHit(ratio, Play(ratio, s, before).value, last);
    }
  }

  lemma StopsWhenHit(ratio: nat, s: Shop, m: Move)
    requires MoveNext(ratio, s, m).Some?
    ensures StopsOne(s, MoveNext(ratio, s, m).value) <==> HitsOne(s, m)
  {
    hide MoveNext;
    if s.http.items != [] {
      forall w | 0 <= w < |s.hands|
        ensures var next := MoveNext(ratio, s, m).value;
                && w < |next.hands|
                && (!s.hands[w].phase.Stopped? && next.hands[w].phase.Stopped? <==> HitsDrained(s, m, w))
      {
        MoveStopsExactly(ratio, s, m, w);
      }
    }
  }

  /** It does happen: a worker that looks for deliveries first stops on a drained syslog
      channel, with a request still queued. */
  lemma StopsWithRequestQueued()
    ensures var worker := Hand(0, Idle, false, 0, 0, 0, 0);
            var end := Play(4, Shop(Queue([7], true), Queue([], false), [worker], [], []), [Step(0), Step(0)]);
            end.Some? && end.value.hands[0].phase.Stopped? && end.value.http == Queue([7], true)
  {
    var s := Shop(Queue([7], true), Queue([], false), [Hand(0, Idle, false, 0, 0, 0, 0)], [], []);
    PlayNothing(4, s);
    PlayOn(4, s, [], Step(0));
    PlayOn(4, s, [] + [Step(0)], Step(0));
    assert [] + [Step(0)] + [Step(0)] == [Step(0), Step(0)];
  }

  // --------------------------------------------------------------------- bounded bypass

  /** A worker while requests have been queued since the mark: a call begun since then
      is at its first or second operation, every completed one took something, and
      between two requests it took at most `ratio` deliveries. */
  predicate Patient(ratio: nat, h: Hand) {
    && h.calls == h.requests + h.deliveries
    && h.deliveries <= h.requests * ratio + Least(h.streak, ratio)
    && (!h.recent ==> h.calls == 0)
    && (h.recent && h.phase.First? ==> h.streak < ratio)
    && (h.recent ==> h.phase.Idle? || h.phase.First? || h.phase.Second? || h.phase.Stopped?)
  }

  function Least(a: nat, b: nat): nat {
    if a < b then a else b
  }

  predicate AllPatient(ratio: nat, s: Shop) {
    forall w | 0 <= w < |s.hands| :: Patient(ratio, s.hands[w])
  }

  lemma GotRequestPatient(ratio: Ratio, h: Hand)
    requires Patient(ratio, h)
    ensures Patient(ratio, GotRequest(h))
  {
    assert (h.requests + 1) * ratio == h.requests * ratio + ratio;
  }

  lemma GotDeliveryPatient(ratio: Ratio, h: Hand)
    requires Patient(ratio, h) && (h.recent ==> h.streak < ratio)
    ensures Patient(ratio, GotDelivery(h))
  {
  }

  lemma MovePatient(ratio: Ratio, s: Shop, m: Move)
    requires AllPatient(ratio, s) && s.http.items != [] && MoveNext(ratio, s, m).Some?
    ensures AllPatient(ratio, MoveNext(ratio, s, m).value)
  {
    hide GotRequest, GotDelivery;
    var w := if m.Step? || m.Wake? then m.w else 0;
    if w < |s.hands| && (m.Step? || m.Wake?) {
      var h := s.hands[w];
      GotRequestPatient(ratio, h);
      if h.recent ==> h.streak < ratio {
        GotDeliveryPatient(ratio, h);
      }
    }
  }

  function Sum(hands: seq<Hand>, f: Hand -> nat): nat {
    if hands == [] then 0 else Sum(hands[..|hands| - 1], f) + f(hands[|hands| - 1])
  }

  const CALLS: Hand -> nat := (h: Hand) => h.calls
  const REQUESTS: Hand -> nat := (h: Hand) => h.requests

  lemma {:induction false} PatientSum(ratio: nat, hands: seq<Hand>)
    requires forall w | 0 <= w < |hands| :: Patient(ratio, hands[w])
    ensures Sum(hands, CALLS) <= Sum(hands, REQUESTS) * (ratio + 1) + |hands| * ratio
  {
    if hands != [] {
      var n := |hands| - 1;
      PatientSum(ratio, hands[..n]);
      var h := hands[n];
      PatientCalls(ratio, h);
      Distribute(Sum(hands[..n], REQUESTS), h.requests, ratio + 1);
      Successor(n, ratio);
      hide Patient;
    }
  }

  lemma PatientCalls(ratio: nat, h: Hand)
    requires Patient(ratio, h)
    ensures h.calls <= h.requests * (ratio + 1) + ratio
  {
    assert h.requests * (ratio + 1) == h.requests * ratio + h.requests;
  }

  lemma Distribute(a: nat, b: nat, n: nat)
    ensures (a + b) * n == a * n + b * n
  {
  }

  lemma {:induction false} SumUpdate(hands: seq<Hand>, f: Hand -> nat, w: nat, h: Hand)
    requires w < |hands|
    ensures Sum(hands[w := h], f) == Sum(hands, f) - f(hands[w]) + f(h)
  {
    var n := |hands| - 1;
    if w == n {
      assert hands[w := h][..n] == hands[..n];
    } else {
      assert hands[w := h][..n] == hands[..n][w := h];
      SumUpdate(hands[..n], f, w, h);
    }
  }

  /** The queue gives up requests in order, and no more calls got one than it gave up. */
  ghost predicate Orderly(start: Shop, s: Shop) {
    && |s.hands| == |start.hands|
    && start.http.items <= s.popped + s.http.items
    && Sum(s.hands, REQUESTS) <= |s.popped|
  }

  lemma MoveOrderly(ratio: nat, start: Shop, s: Shop, m: Move)
    requires Orderly(start, s) && MoveNext(ratio, s, m).Some?
    ensures var next := MoveNext(ratio, s, m).value; Orderly(start, next) && |s.popped| <= |next.popped|
  {
    var next := MoveNext(ratio, s, m).value;
    if m.Step? || m.Wake? {
      OneHand(ratio, s, m);
      hide MoveNext, Sum;
      SumUpdate(s.hands, REQUESTS, m.w, next.hands[m.w]);
      if next.popped != s.popped {
        assert (s.popped + [s.http.items[0]]) + s.http.items[1..] == s.popped + s.http.items;
      }
    } else {
      hide Sum;
      var asked := if m.Ask? then [m.request] else [];
      assert s.popped + (s.http.items + asked) == (s.popped + s.http.items) + asked;
    }
  }

  /** A worker's move changes that worker; it takes the first request or none, and
      counts a request only if it took one. */
  lemma OneHand(ratio: nat, s: Shop, m: Move)
    requires (m.Step? || m.Wake?) && MoveNext(ratio, s, m).Some?
    ensures var next := MoveNext(ratio, s, m).value;
            && m.w < |s.hands| == |next.hands|
            && next.hands == s.hands[m.w := next.hands[m.w]]
            && if next.popped == s.popped then next.http == s.http && next.hands[m.w].requests == s.hands[m.w].requests
               else
                 && s.http.items != [] && next.http.items == s.http.items[1..]
                 && next.popped == s.popped + [s.http.items[0]]
                 && next.hands[m.w].requests <= s.hands[m.w].requests + 1
  {
  }

  lemma {:induction false} NothingCounted(hands: seq<Hand>)
    requires forall w | 0 <= w < |hands| :: hands[w].requests == 0
    ensures Sum(hands, REQUESTS) == 0
  {
    if hands != [] {
      NothingCounted(hands[..|hands| - 1]);
    }
  }

  lemma {:induction false} PlayKeeps(ratio: Ratio, s: Shop, run: seq<Move>, k: nat)
    requires Marked(s) && k < |s.http.items| && Play(ratio, s, run).Some?
    ensures var end := Play(ratio, s, run).value;
            Orderly(s, end) && (|end.popped| <= k ==> AllPatient(ratio, end))
    decreases |run|
  {
    hide MoveNext, Patient, Orderly;
    if run == [] {
      StartsWell(ratio, s);
    } else {
      var before := run[..|run| - 1];
      PlayKeeps(ratio, s, before, k);
      var mid := Play(ratio, s, before).value;
      MoveOrderly(ratio, s, mid, run[|run| - 1]);
      var end := Play(ratio, s, run).value;
      if |end.popped| <= k {
        StillQueued(s, mid, k);
        MovePatient(ratio, mid, run[|run| - 1]);
      }
    }
  }

  lemma StillQueued(start: Shop, s: Shop, k: nat)
    requires Orderly(start, s) && |s.popped| <= k < |start.http.items|
    ensures s.http.items != []
  {
  }

  lemma StartsWell(ratio: nat, s: Shop)
    requires Marked(s)
    ensures Orderly(s, s) && AllPatient(ratio, s)
  {
    NothingCounted(s.hands);
    assert s.popped + s.http.items == s.http.items;
  }

  lemma Monotone(a: nat, b: nat, n: nat)
    requires a <= b
    ensures a * n <= b * n
  {
  }

  /** Bounded bypass. However the workers and the senders interleave, while the request
      at queue position `k` is still waiting, the workers have together completed at
      most `k * (ratio + 1) + W * ratio` calls begun since it stood there. */
  lemma BoundedBypass(ratio: Ratio, s: Shop, run: seq<Move>, k: nat)
    requires Marked(s) && k < |s.http.items| && Play(ratio, s, run).Some?
    requires |Play(ratio, s, run).value.popped| <= k
    ensures var end := Play(ratio, s, run).value;
            && Sum(end.hands, CALLS) <= k * (ratio + 1) + |s.hands| * ratio
            && |s.http.items| <= |end.popped| + |end.http.items| && s.http.items[k] == end.http.items[k - |end.popped|]
  {
    hide Play, Patient, Marked, Sum;
    PlayKeeps(ratio, s, run, k);
    var end := Play(ratio, s, run).value;
    PatientSum(ratio, end.hands);
    var got := Sum(end.hands, REQUESTS);
    Monotone(got, k, ratio + 1);
    assert s.http.items[k] == (end.popped + end.http.items)[k];
  }

  lemma Successor(k: nat, n: nat)
    ensures (k + 1) * n == k * n + n
  {
  }

  /** With one worker, the request at position `k` has been taken once the worker has
      completed `(k + 1) * (ratio + 1)` calls. */
  lemma OneWorkerBound(ratio: Ratio, s: Shop, run: seq<Move>, k: nat)
    requires Marked(s) && k < |s.http.items| && |s.hands| == 1 && Play(ratio, s, run).Some?
    requires Sum(Play(ratio, s, run).value.hands, CALLS) >= (k + 1) * (ratio + 1)
    ensures var end := Play(ratio, s, run).value;
            |end.popped| > k && end.popped[k] == s.http.items[k]
  {
    hide Play, Marked;
    PlayKeeps(ratio, s, run, k);
    var end := Play(ratio, s, run).value;
    Successor(k, ratio + 1);
    if |end.popped| <= k {
      BoundedBypass(ratio, s, run, k);
      assert false;
    }
    assert end.popped[k] == (end.popped + end.http.items)[k];
  }

  // ------------------------------------------------------------ syslog outpaces requests

  /** A worker whose first look always found a delivery: it took at least `ratio`
      deliveries between two requests. */
  predicate Paced(ratio: nat, h: Hand) {
    && h.calls == h.requests + h.deliveries
    && (!h.recent ==> h.calls == 0)
    && (h.missed == 0 ==>
          && (h.requests > 0 ==> (h.requests - 1) * ratio + h.streak <= h.deliveries)
          && (h.recent && !h.phase.Idle? && !h.phase.First? && !h.phase.Stopped? ==> h.streak >= ratio))
  }

  lemma GotRequestPaced(ratio: nat, h: Hand)
    requires Paced(ratio, h) && !h.phase.Idle? && !h.phase.First? && !h.phase.Stopped?
    ensures Paced(ratio, GotRequest(h))
  {
    if h.missed == 0 && h.recent && h.requests > 0 {
      assert h.requests * ratio == (h.requests - 1) * ratio + ratio;
    }
  }

  lemma GotDeliveryPaced(ratio: nat, h: Hand)
    requires Paced(ratio, h)
    ensures Paced(ratio, GotDelivery(h))
  {
  }

  predicate AllPaced(ratio: nat, s: Shop) {
    forall w | 0 <= w < |s.hands| :: Paced(ratio, s.hands[w])
  }

  lemma MovePaced(ratio: nat, s: Shop, m: Move)
    requires AllPaced(ratio, s) && MoveNext(ratio, s, m).Some?
    ensures AllPaced(ratio, MoveNext(ratio, s, m).value)
    ensures |MoveNext(ratio, s, m).value.hands| == |s.hands|
  {
    hide GotRequest, GotDelivery;
    if (m.Step? || m.Wake?) && m.w < |s.hands| {
      var h := s.hands[m.w];
      GotDeliveryPaced(ratio, h);
      if !h.phase.Idle? && !h.phase.First? && !h.phase.Stopped? {
        GotRequestPaced(ratio, h);
      }
    }
  }

  lemma {:induction false} PlayPaced(ratio: nat, s: Shop, run: seq<Move>)
    requires Marked(s) && Play(ratio, s, run).Some?
    ensures AllPaced(ratio, Play(ratio, s, run).value) && |Play(ratio, s, run).value.hands| == |s.hands|
    decreases |run|
  {
    hide MoveNext;
    if run != [] {
      hide Paced;
      PlayPaced(ratio, s, run[..|run| - 1]);
      MovePaced(ratio, Play(ratio, s, run[..|run| - 1]).value, run[|run| - 1]);
    }
  }

  /** Syslog outpaces requests: a worker that always finds a delivery when it looks
      first takes at least `ratio` of them for every request after its first; with a
      ratio of at least one no two calls in a row both take a request. */
  lemma SyslogOutpaces(ratio: nat, s: Shop, run: seq<Move>, w: nat)
    requires Marked(s) && w < |s.hands| && Play(ratio, s, run).Some?
    ensures var end := Play(ratio, s, run).value;
            && w < |end.hands|
            && var h := end.hands[w];
            && h.calls == h.requests + h.deliveries
            && (h.missed == 0 && h.requests > 0 ==> (h.requests - 1) * ratio <= h.deliveries)
            && (h.missed == 0 && h.calls == 2 && ratio >= 1 ==> h.requests <= 1)
  {
    hide Play, Marked;
    PlayPaced(ratio, s, run);
    assert Paced(ratio, Play(ratio, s, run).value.hands[w]);
  }
}
