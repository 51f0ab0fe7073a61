/**
 The receive loop and its worker: datagrams pass through a bounded queue, and the two threads take
 their steps in any order.
 */
module ReceiveQueue {
  const REPORT_INTERVAL := 5.0

  /** Where the receive loop stands: waiting for a datagram, about to look at the backlog, or shut down. */
  datatype Loop = Receiving | Measuring | Closed

  datatype Worker<D> = Idle | Busy(datagram: D) | Stopped

  datatype Item<D> = Datagram(data: D) | Sentinel

  datatype Report = Dropped(count: nat) | Backlog(peak: nat)

  /** The shared queue and both threads, with the history of what arrived and what became of it. */
  datatype State<D> = State(
    queue: seq<Item<D>>,
    dropped: nat,
    backlogPeak: nat,
    lastReport: real,
    loop: Loop,
    worker: Worker<D>,
    reports: seq<Report>,
    received: seq<D>,
    accepted: seq<bool>,
    handled: seq<D>,
    failures: nat)

  datatype Event<D> =
    | Arrive(datagram: D)
    | ReceiveError
    | Measure(now: real)
    | Interrupt
    | Take
    | Finish(ok: bool)

  function Start<D>(now: real): State<D> {
    State([], 0, 0, now, Receiving, Idle, [], [], [], [], 0)
  }

  /** `queue.Queue(maxsize)`: a size below one means no limit. */
  predicate IsFull<D>(size: int, queue: seq<Item<D>>) {
    size >= 1 && |queue| >= size
  }

  function Max(a: nat, b: nat): nat {
    if a >= b then a else b
  }

  function Arrived<D>(size: int, s: State<D>, d: D): State<D> {
    if IsFull(size, s.queue) then
      s.(dropped := s.dropped + 1, loop := Measuring,
         received := s.received + [d], accepted := s.accepted + [false])
    else
      s.(queue := s.queue + [Datagram(d)], loop := Measuring,
         received := s.received + [d], accepted := s.accepted + [true])
  }

  function Measured<D>(size: int, s: State<D>, now: real): State<D> {
    var peak := Max(s.backlogPeak, |s.queue|);
    if now - s.lastReport >= REPORT_INTERVAL then
      var reports :=
        if s.dropped > 0 then s.reports + [Dropped(s.dropped)]
        else if peak >= size / 2 then s.reports + [Backlog(peak)]
        else s.reports;
      s.(dropped := 0, backlogPeak := 0, lastReport := now, loop := Receiving, reports := reports)
    else s.(backlogPeak := peak, loop := Receiving)
  }

  function Interrupted<D>(size: int, s: State<D>): State<D> {
    s.(queue := if IsFull(size, s.queue) then s.queue else s.queue + [Sentinel], loop := Closed)
  }

  function Taken<D>(s: State<D>): State<D>
    requires s.queue != []
  {
    s.(queue := s.queue[1..], worker := if s.queue[0].Sentinel? then Stopped else Busy(s.queue[0].data))
  }

  function Finished<D>(s: State<D>, ok: bool): State<D>
    requires s.worker.Busy?
  {
    s.(worker := Idle, handled := s.handled + [s.worker.datagram],
       failures := if ok then s.failures else s.failures + 1)
  }

  /** One step of either thread; a step its thread is not ready for leaves everything as it is. */
  function Step<D>(size: int, s: State<D>, e: Event<D>): State<D> {
    match e
    case Arrive(d) => if s.loop.Receiving? then Arrived(size, s, d) else s
    case ReceiveError => s
    case Measure(now) => if s.loop.Measuring? then Measured(size, s, now) else s
    case Interrupt => if !s.loop.Closed? then Interrupted(size, s) else s
    case Take => if s.worker.Idle? && s.queue != [] then Taken(s) else s
    case Finish(ok) => if s.worker.Busy? then Finished(s, ok) else s
  }

  function Run<D>(size: int, start: real, es: seq<Event<D>>): State<D> {
    if es == [] then Start(start)
    else Step(size, Run(size, start, es[..|es| - 1]), es[|es| - 1])
  }

  // ---------------------------------------------------------------------------------------------
  // Conservation
  // ---------------------------------------------------------------------------------------------

  /** The received datagrams with the dropped ones deleted. */
  function Kept<D>(received: seq<D>, accepted: seq<bool>): seq<D>
    requires |received| == |accepted|
  {
    if received == [] then []
    else Kept(received[..|received| - 1], accepted[..|received| - 1])
           + (if accepted[|received| - 1] then [received[|received| - 1]] else [])
  }

  function InProgress<D>(w: Worker<D>): seq<D> {
    if w.Busy? then [w.datagram] else []
  }

  function Waiting<D>(queue: seq<Item<D>>): seq<D> {
    if queue == [] then []
    else Waiting(queue[..|queue| - 1]) + (if queue[|queue| - 1].Datagram? then [queue[|queue| - 1].data] else [])
  }

  function Reported(reports: seq<Report>): nat {
    if reports == [] then 0
    else
      var last := reports[|reports| - 1];
      Reported(reports[..|reports| - 1]) + if last.Dropped? then last.count else 0
  }

  ghost predicate Conserved<D>(s: State<D>) {
    && |s.accepted| == |s.received|
    && s.handled + InProgress(s.worker) + Waiting(s.queue) == Kept(s.received, s.accepted)
    && |Kept(s.received, s.accepted)| + Reported(s.reports) + s.dropped == |s.received|
  }

  ghost predicate Bounded<D>(size: int, s: State<D>) {
    size >= 1 ==> |s.queue| <= size && s.backlogPeak <= size
  }

  /** The sentinel is put once, last, at shutdown; a stopped worker has emptied the queue. */
  ghost predicate Shutdown<D>(s: State<D>) {
    && (forall i :: 0 <= i < |s.queue| && s.queue[i].Sentinel? ==> s.loop.Closed? && i == |s.queue| - 1)
    && (s.worker.Stopped? ==> s.loop.Closed? && s.queue == [])
  }

  ghost predicate Inv<D>(size: int, s: State<D>) {
    Conserved(s) && Bounded(size, s) && Shutdown(s)
  }

  lemma {:induction false} WaitingSnoc<D>(queue: seq<Item<D>>, item: Item<D>)
    ensures Waiting(queue + [item]) == Waiting(queue) + if item.Datagram? then [item.data] else []
  {
    assert (queue + [item])[..|queue|] == queue;
  }

  lemma {:induction false} WaitingFirst<D>(queue: seq<Item<D>>)
    requires queue != []
    ensures Waiting(queue) == (if queue[0].Datagram? then [queue[0].data] else []) + Waiting(queue[1..])
  {
    var earlier, last := queue[..|queue| - 1], queue[|queue| - 1];
    if earlier == [] {
      assert queue[1..] == [];
    } else {
      WaitingFirst(earlier);
      WaitingSnoc(earlier[1..], last);
      assert queue[1..] == earlier[1..] + [last];
    }
  }

  lemma {:induction false} WaitingCount<D>(queue: seq<Item<D>>)
    requires forall i :: 0 <= i < |queue| ==> queue[i].Datagram?
    ensures |Waiting(queue)| == |queue|
  {
    if queue != [] {
      WaitingCount(queue[..|queue| - 1]);
    }
  }

  lemma {:induction false} KeptSnoc<D>(received: seq<D>, accepted: seq<bool>, d: D, ok: bool)
    requires |received| == |accepted|
    ensures Kept(received + [d], accepted + [ok]) == Kept(received, accepted) + if ok then [d] else []
  {
    assert (received + [d])[..|received|] == received && (accepted + [ok])[..|accepted|] == accepted;
  }

  lemma {:induction false} ArrivedKeeps<D>(size: int, s: State<D>, d: D)
    requires Inv(size, s) && s.loop.Receiving?
    ensures Inv(size, Arrived(size, s, d))
  {
    var s' := Arrived(size, s, d);
    KeptSnoc(s.received, s.accepted, d, !IsFull(size, s.queue));
    if !IsFull(size, s.queue) {
      WaitingSnoc(s.queue, Datagram(d));
      assert s'.handled + InProgress(s'.worker) + Waiting(s'.queue)
          == (s.handled + InProgress(s.worker) + Waiting(s.queue)) + [d];
    }
    ArrivedShutdown(size, s, d);
  }

  lemma {:induction false} ArrivedShutdown<D>(size: int, s: State<D>, d: D)
    requires Shutdown(s) && s.loop.Receiving?
    ensures Shutdown(Arrived(size, s, d))
  {
  }

  /** A report moves the counted drops into the log, so the total of drops stays the same. */
  lemma {:induction false} MeasuredKeeps<D>(size: int, s: State<D>, now: real)
    requires Inv(size, s) && s.loop.Measuring?
    ensures Inv(size, Measured(size, s, now))
  {
  }

  lemma {:induction false} InterruptedKeeps<D>(size: int, s: State<D>)
    requires Inv(size, s) && !s.loop.Closed?
    ensures Inv(size, Interrupted(size, s))
  {
    if !IsFull(size, s.queue) {
      WaitingSnoc(s.queue, Sentinel);
    }
  }

  lemma {:induction false} TakenKeeps<D>(size: int, s: State<D>)
    requires Inv(size, s) && s.worker.Idle? && s.queue != []
    ensures Inv(size, Taken(s))
  {
    WaitingFirst(s.queue);
    var s' := Taken(s);
    forall i | 0 <= i < |s'.queue| && s'.queue[i].Sentinel?
      ensures s.loop.Closed? && i == |s'.queue| - 1
    {
      assert s.queue[i + 1].Sentinel?;
    }
  }

  lemma {:induction false} FinishedKeeps<D>(size: int, s: State<D>, ok: bool)
    requires Inv(size, s) && s.worker.Busy?
    ensures Inv(size, Finished(s, ok))
  {
  }

  lemma {:induction false} StepKeeps<D>(size: int, s: State<D>, e: Event<D>)
    requires Inv(size, s)
    ensures Inv(size, Step(size, s, e))
  {
    match e
    case Arrive(d) =>
      if s.loop.Receiving? {
        ArrivedKeeps(size, s, d);
      }
    case Measure(now) =>
      if s.loop.Measuring? {
        MeasuredKeeps(size, s, now);
      }
    case Interrupt =>
      if !s.loop.Closed? {
        InterruptedKeeps(size, s);
      }
    case Take =>
      if s.worker.Idle? && s.queue != [] {
        TakenKeeps(size, s);
      }
    case Finish(ok) =>
      if s.worker.Busy? {
        FinishedKeeps(size, s, ok);
      }
    case ReceiveError =>
  }

  /**
   Under every interleaving: what was handled, then what is being handled, then what waits are the
   received datagrams in order with the dropped ones deleted; every drop is reported or still counted;
   the queue keeps within its size.
   */
  lemma {:induction false} EveryInterleavingConserves<D>(size: int, start: real, es: seq<Event<D>>)
    ensures Inv(size, Run(size, start, es))
  {
    if es != [] {
      EveryInterleavingConserves(size, start, es[..|es| - 1]);
      StepKeeps(size, Run(size, start, es[..|es| - 1]), es[|es| - 1]);
    }
  }

  /** When the worker has stopped, everything that was accepted has been handled, in order. */
  lemma {:induction false} StoppedWorkerHandledEverything<D>(size: int, start: real, es: seq<Event<D>>)
    requires Run(size, start, es).worker.Stopped?
    ensures |Run(size, start, es).accepted| == |Run(size, start, es).received|
    ensures Run(size, start, es).handled == Kept(Run(size, start, es).received, Run(size, start, es).accepted)
  {
    EveryInterleavingConserves(size, start, es);
  }

  /** A datagram is dropped exactly when as many accepted ones as the queue holds are still waiting. */
  lemma {:induction false} DroppedExactlyWhenBacklogged<D>(size: int, start: real, es: seq<Event<D>>, d: D)
    requires Run(size, start, es).loop.Receiving?
    ensures var s, s' := Run(size, start, es), Run(size, start, es + [Arrive(d)]);
            && s'.received == s.received + [d]
            && |s.received| == |s.accepted|
            && s'.accepted == s.accepted
                + [!(size >= 1 && |Kept(s.received, s.accepted)| - |s.handled| - |InProgress(s.worker)| >= size)]
  {
    var s := Run(size, start, es);
    assert (es + [Arrive(d)])[..|es|] == es;
    EveryInterleavingConserves(size, start, es);
    WaitingCount(s.queue);
  }

  // ---------------------------------------------------------------------------------------------
  // Reports
  // ---------------------------------------------------------------------------------------------

  /** Reporting was due at `now`, five seconds after the last time it was. */
  ghost predicate IsDue<D>(s: State<D>, e: Event<D>) {
    e.Measure? && s.loop.Measuring? && e.now - s.lastReport >= 5.0
  }

  /** The queue's lengths at the measurements since reporting was last due. */
  ghost function Lengths<D>(size: int, start: real, es: seq<Event<D>>): seq<nat> {
    if es == [] then []
    else
      var earlier, last := es[..|es| - 1], es[|es| - 1];
      var s := Run(size, start, earlier);
      if IsDue(s, last) then []
      else Lengths(size, start, earlier) + if last.Measure? && s.loop.Measuring? then [|s.queue|] else []
  }

  /** The datagrams dropped since reporting was last due. */
  ghost function DropsSince<D>(size: int, start: real, es: seq<Event<D>>): nat {
    if es == [] then 0
    else
      var earlier, last := es[..|es| - 1], es[|es| - 1];
      var s := Run(size, start, earlier);
      if IsDue(s, last) then 0
      else DropsSince(size, start, earlier)
           + if last.Arrive? && s.loop.Receiving? && 1 <= size <= |s.queue| then 1 else 0
  }

  /** The greatest of the numbers, and zero of none. */
  ghost predicate IsGreatest(m: nat, s: seq<nat>) {
    (forall i :: 0 <= i < |s| ==> s[i] <= m) && (m in s || (s == [] && m == 0))
  }

  lemma {:induction false} GreatestSnoc(m: nat, s: seq<nat>, x: nat)
    requires IsGreatest(m, s)
    ensures IsGreatest(if m >= x then m else x, s + [x])
  {
    assert (s + [x])[|s|] == x;
    if m in s {
      assert m in s + [x];
    }
  }

  lemma {:induction false} CountersAreSince<D>(size: int, start: real, es: seq<Event<D>>)
    ensures Run(size, start, es).dropped == DropsSince(size, start, es)
    ensures IsGreatest(Run(size, start, es).backlogPeak, Lengths(size, start, es))
  {
    if es != [] {
      var earlier, last := es[..|es| - 1], es[|es| - 1];
      CountersAreSince(size, start, earlier);
      GreatestSnoc(Run(size, start, earlier).backlogPeak, Lengths(size, start, earlier),
                   |Run(size, start, earlier).queue|);
      assert Lengths(size, start, earlier) + [] == Lengths(size, start, earlier);
    }
  }

  /** The reports after an event: one more when reporting is due and there is something to tell, and else no more. */
  ghost predicate ReportsAs(before: seq<Report>, after: seq<Report>, due: bool, drops: nat, peak: nat, size: int) {
    if due && drops > 0 then after == before + [Dropped(drops)]
    else if due && 2 * peak + 1 >= size then after == before + [Backlog(peak)]
    else after == before
  }

  /**
   Under every interleaving: five seconds after the last time, the drops since then are reported, or if there were
   none the queue's greatest length since then, if that is half of what it holds. Nothing is reported in between.
   */
  lemma {:induction false} ReportedExactlyWhenDue<D>(size: int, start: real, es: seq<Event<D>>, e: Event<D>)
    returns (peak: nat)
    ensures var s := Run(size, start, es);
            && IsGreatest(peak, Lengths(size, start, es) + if IsDue(s, e) then [|s.queue|] else [])
            && ReportsAs(s.reports, Run(size, start, es + [e]).reports, IsDue(s, e), DropsSince(size, start, es),
                         peak, size)
  {
    var s := Run(size, start, es);
    assert (es + [e])[..|es|] == es;
    CountersAreSince(size, start, es);
    GreatestSnoc(s.backlogPeak, Lengths(size, start, es), |s.queue|);
    peak := if IsDue(s, e) && s.backlogPeak < |s.queue| then |s.queue| else s.backlogPeak;
    assert Lengths(size, start, es) + [] == Lengths(size, start, es);
  }

  // ---------------------------------------------------------------------------------------------
  // Shutting down
  // ---------------------------------------------------------------------------------------------

  lemma {:induction false} StepKeepsSentinel<D>(size: int, s: State<D>, e: Event<D>)
    requires Inv(size, s) && s.loop.Closed? && (s.worker.Stopped? || SentinelLast(s.queue))
    ensures var s' := Step(size, s, e); s'.loop.Closed? && (s'.worker.Stopped? || SentinelLast(s'.queue))
  {
    if e.Take? && s.worker.Idle? && |s.queue| > 1 {
      assert s.queue[1..][|s.queue| - 2] == s.queue[|s.queue| - 1];
    }
  }

  /** The queue had room when the receive loop was interrupted, as the `n`th event. */
  ghost predicate InterruptedWithRoom<D>(size: int, start: real, es: seq<Event<D>>, n: nat) {
    && n < |es| && es[n].Interrupt? && !Run(size, start, es[..n]).loop.Closed?
    && !(1 <= size <= |Run(size, start, es[..n]).queue|)
  }

  /**
   If the queue had room at the shutdown, the worker has stopped ever after or the sentinel is still on its way to
   it, behind everything that was accepted.
   */
  lemma {:induction false} SentinelIsOnItsWay<D>(size: int, start: real, es: seq<Event<D>>, n: nat)
    requires InterruptedWithRoom(size, start, es, n)
    ensures Run(size, start, es).loop.Closed?
    ensures Run(size, start, es).worker.Stopped? || SentinelLast(Run(size, start, es).queue)
  {
    var earlier, last := es[..|es| - 1], es[|es| - 1];
    EveryInterleavingConserves(size, start, earlier);
    if n < |earlier| {
      assert earlier[..n] == es[..n];
      SentinelIsOnItsWay(size, start, earlier, n);
      StepKeepsSentinel(size, Run(size, start, earlier), last);
    }
  }

  /** The worker's own steps: one for each datagram it has in hand and each item queued. */
  ghost function Turns<D>(s: State<D>): nat {
    2 * |s.queue| + if s.worker.Busy? then 1 else 0
  }

  /** What the worker does next: it takes an item, or finishes with its datagram. */
  ghost predicate IsNextTurn<D>(s: State<D>, e: Event<D>) {
    if s.worker.Busy? then e.Finish? else e.Take?
  }

  /** Each of those steps brings the worker closer to the end: with the sentinel queued it does stop. */
  lemma {:induction false} EachTurnIsProgress<D>(size: int, s: State<D>, e: Event<D>)
    requires Inv(size, s) && s.loop.Closed? && !s.worker.Stopped? && SentinelLast(s.queue) && IsNextTurn(s, e)
    ensures var s' := Step(size, s, e); Turns(s') < Turns(s) && (s'.worker.Stopped? || SentinelLast(s'.queue))
  {
    StepKeepsSentinel(size, s, e);
  }

  ghost predicate SameButOutcome<D>(e: Event<D>, f: Event<D>) {
    e == f || (e.Finish? && f.Finish?)
  }

  /** A failing handler loses its own datagram only: whichever calls fail, the rest of the run is the same. */
  lemma {:induction false} FailuresChangeNothingElse<D>(size: int, start: real, es: seq<Event<D>>, fs: seq<Event<D>>)
    requires |es| == |fs| && forall i :: 0 <= i < |es| ==> SameButOutcome(es[i], fs[i])
    ensures Run(size, start, es).(failures := 0) == Run(size, start, fs).(failures := 0)
  {
    if es != [] {
      var n := |es| - 1;
      FailuresChangeNothingElse(size, start, es[..n], fs[..n]);
      assert SameButOutcome(es[n], fs[n]);
      OutcomeOnlyCounts(size, Run(size, start, es[..n]), Run(size, start, fs[..n]), es[n], fs[n]);
    }
  }

  lemma {:induction false} OutcomeOnlyCounts<D>(size: int, s: State<D>, t: State<D>, e: Event<D>, f: Event<D>)
    requires s.(failures := 0) == t.(failures := 0) && SameButOutcome(e, f)
    ensures Step(size, s, e).(failures := 0) == Step(size, t, f).(failures := 0)
  {
  }

  // ---------------------------------------------------------------------------------------------
  // The server
  // ---------------------------------------------------------------------------------------------

  class UdpServer<D> {
    const queueSize: int
    var packets: seq<Item<D>>
    var dropped: nat
    var backlogPeak: nat
    var lastReport: real
    var loop: Loop
    var worker: Worker<D>
    var reports: seq<Report>
    var failures: nat
    ghost var received: seq<D>
    ghost var accepted: seq<bool>
    ghost var handled: seq<D>

    ghost function Contents(): State<D>
      reads this
    {
      State(packets, dropped, backlogPeak, lastReport, loop, worker, reports, received, accepted, handled, failures)
    }

    constructor (queueSize: int, now: real)
      ensures this.queueSize == queueSize && Contents() == Start(now)
    {
      this.queueSize := queueSize;
      packets, dropped, backlogPeak, lastReport := [], 0, 0, now;
      loop, worker, reports, failures := Receiving, Idle, [], 0;
      received, accepted, handled := [], [], [];
    }

    /** The receive loop has a datagram: queue it, or count it as dropped. */
    method Receive(data: D)
      requires loop.Receiving?
      modifies this
      ensures Contents() == Step(queueSize, old(Contents()), Arrive(data))
    {
      received := received + [data];
      if queueSize >= 1 && |packets| >= queueSize {
        dropped := dropped + 1;
        accepted := accepted + [false];
      } else {
        packets := packets + [Datagram(data)];
        accepted := accepted + [true];
      }
      loop := Measuring;
    }

    /** The rest of the receive loop's iteration: the peak backlog, and the report when one is due. */
    method Report(now: real)
      requires loop.Measuring?
      modifies this
      ensures Contents() == Step(queueSize, old(Contents()), Measure(now))
    {
      backlogPeak := Max(backlogPeak, |packets|);
      if now - lastReport >= REPORT_INTERVAL {
        if dropped > 0 {
          reports := reports + [Dropped(dropped)];
        } else if backlogPeak >= queueSize / 2 {
          reports := reports + [Backlog(backlogPeak)];
        }
        dropped, backlogPeak, lastReport := 0, 0, now;
      }
      loop := Receiving;
    }

    method Close()
      requires !loop.Closed?
      modifies this
      ensures Contents() == Step(queueSize, old(Contents()), Interrupt)
    {
      if !(queueSize >= 1 && |packets| >= queueSize) {
        packets := packets + [Sentinel];
      }
      loop := Closed;
    }

    method Get()
      requires worker.Idle? && packets != []
      modifies this
      ensures Contents() == Step(queueSize, old(Contents()), Take)
    {
      worker := if packets[0].Sentinel? then Stopped else Busy(packets[0].data);
      packets := packets[1..];
    }

    method Handle(ok: bool)
      requires worker.Busy?
      modifies this
      ensures Contents() == Step(queueSize, old(Contents()), Finish(ok))
    {
      handled := handled + [worker.datagram];
      if !ok {
        failures := failures + 1;
      }
      worker := Idle;
    }

    /**
     The worker's loop once the receive loop has closed with the sentinel queued: it hands every
     waiting datagram to the handler, whichever calls fail, and stops.
     */
    method ProcessPackets(fails: D -> bool)
      requires Inv(queueSize, Contents()) && worker.Idle? && SentinelLast(packets)
      modifies this
      ensures Inv(queueSize, Contents()) && worker.Stopped? && packets == []
      ensures received == old(received) && accepted == old(accepted)
      ensures handled == old(handled) + Waiting(old(packets)) == Kept(received, accepted)
    {
      ghost var all := handled + Waiting(packets);
      while !worker.Stopped?
        invariant Draining(queueSize, Contents(), all)
        invariant received == old(received) && accepted == old(accepted)
        decreases |packets|
      {
        var ok := packets[0].Datagram? && !fails(packets[0].data);
        WorkerTurn(queueSize, Contents(), ok, all);
        Get();
        if worker.Busy? {
          Handle(ok);
        }
      }
    }
  }

  predicate SentinelLast<D>(queue: seq<Item<D>>) {
    queue != [] && queue[|queue| - 1].Sentinel?
  }

  /** The worker between two turns, on its way to the sentinel, with `all` handled or still waiting. */
  ghost predicate Draining<D>(size: int, s: State<D>, all: seq<D>) {
    && Inv(size, s) && !s.worker.Busy?
    && s.handled + Waiting(s.queue) == all
    && (s.worker.Idle? ==> SentinelLast(s.queue))
  }

  lemma {:induction false} WorkerTurn<D>(size: int, s: State<D>, ok: bool, all: seq<D>)
    requires Draining(size, s, all) && s.worker.Idle?
    ensures var t := Step(size, s, Take);
            t.queue == s.queue[1..] && Draining(size, if t.worker.Busy? then Step(size, t, Finish(ok)) else t, all)
  {
    var t := Step(size, s, Take);
    StepKeeps(size, s, Take);
    WaitingFirst(s.queue);
    if t.worker.Busy? {
      StepKeeps(size, t, Finish(ok));
      HandedOn(s.handled, s.queue, t.worker.datagram);
    }
  }

  /** The taken datagram goes to the handler, and the sentinel is still last. */
  lemma {:induction false} HandedOn<D>(handled: seq<D>, queue: seq<Item<D>>, d: D)
    requires SentinelLast(queue) && queue[0] == Datagram(d)
    ensures handled + [d] + Waiting(queue[1..]) == handled + Waiting(queue) && SentinelLast(queue[1..])
  {
    WaitingFirst(queue);
    assert handled + [d] + Waiting(queue[1..]) == handled + ([d] + Waiting(queue[1..]));
  }
}
