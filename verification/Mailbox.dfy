/** A mailbox: one worker, a bounded channel of jobs, a read-write lock around
    admission and a close protocol. Every step a goroutine can take between two
    synchronisation points is one event; any number of callers may stand anywhere. */
module Mailbox {

  /** What goes through the channel: a caller's job, whose function may be nil, or the
      empty job that Close sends. */
  datatype Item = Work(call: nat, fn: bool) | Sentinel

  datatype Kind = ForSubmit | ForDo

  datatype Outcome = Admitted | Finished | ErrClosed | ErrFull | Cancelled

  /** Where one call of Submit or Do stands. The first three hold the read lock. */
  datatype Call =
    | Locked(kind: Kind, fn: bool)
    | Sent(kind: Kind, fn: bool)
    | Counted(kind: Kind, fn: bool)
    | Awaiting(fn: bool)
    | Over(outcome: Outcome)

  /** Where the body of closeOnce stands. */
  datatype Closing = NotYet | Locking | Holding | Sending | Joining | Closed

  datatype Worker = Receiving | Running(call: nat) | Ran(call: nat) | Signalled(call: nat) | Stopped

  /** The shared state, and the history of what was sent, taken and run. */
  datatype Box = Box(
    capacity: nat, queue: seq<Item>, isClosed: bool, inflight: int,
    calls: map<nat, Call>, closing: Closing, worker: Worker,
    sent: seq<Item>, taken: seq<Item>, executed: seq<nat>, done: set<nat>)

  datatype Event =
    | Begin(call: nat, kind: Kind, fn: bool)
    | Send(call: nat) | Full(call: nat) | Cancel(call: nat) | Count(call: nat) | Release(call: nat) | Wake(call: nat)
    | CloseCall | CloseLock | CloseSet | CloseSend | CloseJoin
    | Receive | Execute | Signal | Decrement

  function NewMailbox(queueSize: int): (b: Box)
    ensures b.capacity >= queueSize && (b.capacity == queueSize || b.capacity == 0)
  {
    Box(if queueSize < 0 then 0 else queueSize, [], false, 0, map[], NotYet, Receiving, [], [], [], {})
  }

  /** A send goes ahead when the buffer has room or the worker is waiting for it. */
  predicate Room(b: Box) {
    |b.queue| < b.capacity || (b.worker.Receiving? && b.queue == [])
  }

  predicate Reading(c: Call) { c.Locked? || c.Sent? || c.Counted? }

  predicate NoReader(b: Box) {
    forall t :: t in b.calls ==> !Reading(b.calls[t])
  }

  function Enqueue(b: Box, item: Item): Box {
    b.(queue := b.queue + [item], sent := b.sent + [item])
  }

  function Moved(b: Box, t: nat, c: Call): Box { b.(calls := b.calls[t := c]) }

  /** One step of a Submit or Do call. */
  function CallStep(b: Box, e: Event): Box {
    match e
    case Begin(t, kind, fn) =>
      if t in b.calls || b.closing.Holding? then b
      else Moved(b, t, if b.isClosed then Over(ErrClosed) else Locked(kind, fn))
    case Send(t) =>
      if t in b.calls && b.calls[t].Locked? && Room(b)
      then Moved(Enqueue(b, Work(t, b.calls[t].fn)), t, Sent(b.calls[t].kind, b.calls[t].fn)) else b
    case Full(t) =>
      if t in b.calls && b.calls[t].Locked? && b.calls[t].kind.ForSubmit? && !Room(b)
      then Moved(b, t, Over(ErrFull)) else b
    case Cancel(t) =>
      if t in b.calls && b.calls[t].Locked? && b.calls[t].kind.ForDo? then Moved(b, t, Over(Cancelled)) else b
    case Count(t) =>
      if t in b.calls && b.calls[t].Sent?
      then Moved(b, t, Counted(b.calls[t].kind, b.calls[t].fn)).(inflight := b.inflight + 1) else b
    case Release(t) =>
      if t in b.calls && b.calls[t].Counted?
      then Moved(b, t, if b.calls[t].kind.ForDo? then Awaiting(b.calls[t].fn) else Over(Admitted)) else b
    case Wake(t) =>
      if t in b.calls && b.calls[t].Awaiting? && t in b.done then Moved(b, t, Over(Finished)) else b
    case _ => b
  }

  /** One step of the body of Close. */
  function CloseStep(b: Box, e: Event): Box {
    match e
    case CloseCall => if b.closing.NotYet? then b.(closing := Locking) else b
    case CloseLock => if b.closing.Locking? && NoReader(b) then b.(closing := Holding) else b
    case CloseSet => if b.closing.Holding? then b.(isClosed := true, closing := Sending) else b
    case CloseSend => if b.closing.Sending? && Room(b) then Enqueue(b, Sentinel).(closing := Joining) else b
    case CloseJoin => if b.closing.Joining? && b.worker.Stopped? then b.(closing := Closed) else b
    case _ => b
  }

  /** One step of the worker loop. */
  function WorkerStep(b: Box, e: Event): Box {
    match e
    case Receive =>
      if b.worker.Receiving? && b.queue != [] then
        b.(queue := b.queue[1..], taken := b.taken + [b.queue[0]],
           worker := if b.queue[0].Work? && b.queue[0].fn then Running(b.queue[0].call) else Stopped)
      else b
    case Execute =>
      if b.worker.Running? then b.(executed := b.executed + [b.worker.call], worker := Ran(b.worker.call)) else b
    case Signal =>
      if b.worker.Ran? then b.(done := b.done + {b.worker.call}, worker := Signalled(b.worker.call)) else b
    case Decrement =>
      if b.worker.Signalled? then b.(inflight := b.inflight - 1, worker := Receiving) else b
    case _ => b
  }

  predicate OfWorker(e: Event) { e.Receive? || e.Execute? || e.Signal? || e.Decrement? }

  predicate OfClose(e: Event) { e.CloseCall? || e.CloseLock? || e.CloseSet? || e.CloseSend? || e.CloseJoin? }

  function Step(b: Box, e: Event): Box {
    if OfWorker(e) then WorkerStep(b, e) else if OfClose(e) then CloseStep(b, e) else CallStep(b, e)
  }

  function RunAll(b: Box, es: seq<Event>): Box
    decreases |es|
  {
    if es == [] then b else RunAll(Step(b, es[0]), es[1..])
  }

  // ------------------------------------------------------------- the invariant

  predicate Fifo(b: Box) {
    b.sent == b.taken + b.queue && |b.queue| <= if b.capacity == 0 then 1 else b.capacity
  }

  /** Once the writer holds the lock no caller is admitting. */
  predicate Exclusion(b: Box) {
    && (b.isClosed <==> b.closing.Sending? || b.closing.Joining? || b.closing.Closed?)
    && (b.closing.Holding? || b.isClosed ==> NoReader(b))
    && (b.closing.Closed? ==> b.worker.Stopped?)
  }

  /** The sentinel is sent once and is the last item ever sent. */
  predicate SentinelLast(b: Box) {
    && (b.closing.Joining? || b.closing.Closed? <==> Sentinel in b.sent)
    && (forall i :: 0 <= i < |b.sent| && b.sent[i].Sentinel? ==> i == |b.sent| - 1)
  }

  predicate IsIn(b: Box, t: nat, fn: bool) { Work(t, fn) in b.sent }

  /** What a call's position says about its job. */
  predicate Honest(b: Box, t: nat, c: Call) {
    match c
    case Locked(_, _) => !IsIn(b, t, true) && !IsIn(b, t, false)
    case Sent(_, fn) => IsIn(b, t, fn)
    case Counted(_, fn) => IsIn(b, t, fn)
    case Awaiting(fn) => IsIn(b, t, fn)
    case Over(o) =>
      match o {
        case Admitted => IsIn(b, t, true) || IsIn(b, t, false)
        case Finished => t in b.executed
        case ErrClosed => b.isClosed && !IsIn(b, t, true) && !IsIn(b, t, false)
        case _ => !IsIn(b, t, true) && !IsIn(b, t, false)
      }
  }

  predicate CallsHonest(b: Box) {
    forall t :: t in b.calls ==> Honest(b, t, b.calls[t])
  }

  predicate OneJobPerCall(b: Box) {
    && (forall i :: 0 <= i < |b.sent| && b.sent[i].Work? ==> b.sent[i].call in b.calls)
    && (forall i, j :: 0 <= i < j < |b.sent| && b.sent[i].Work? && b.sent[j].Work? ==>
          b.sent[i].call != b.sent[j].call)
  }

  /** The worker has run what it took, in order, up to the item it is at. */
  predicate InOrder(b: Box) {
    && |b.executed| == |b.taken| - (if b.worker.Running? || b.worker.Stopped? then 1 else 0)
    && (forall i :: 0 <= i < |b.executed| ==> b.taken[i] == Work(b.executed[i], true))
    && (b.worker.Running? ==> b.taken[|b.taken| - 1] == Work(b.worker.call, true))
    && (b.worker.Ran? ==> b.executed != [] && b.executed[|b.executed| - 1] == b.worker.call)
    && (b.worker.Stopped? ==> !(b.taken[|b.taken| - 1].Work? && b.taken[|b.taken| - 1].fn))
    && (forall t :: t in b.done ==> t in b.executed)
  }

  function Uncounted(b: Box): set<nat> {
    set t | t in b.calls && b.calls[t].Sent?
  }

  /** Jobs in the queue: all of it but a sentinel at its end. */
  function Queued(b: Box): nat {
    if b.queue != [] && b.queue[|b.queue| - 1].Sentinel? then |b.queue| - 1 else |b.queue|
  }

  /** The job the worker has taken and not yet counted off; one without a function
      stops the worker and is never counted off. */
  function Held(b: Box): nat {
    match b.worker
    case Receiving => 0
    case Stopped => if b.taken != [] && b.taken[|b.taken| - 1].Work? then 1 else 0
    case _ => 1
  }

  predicate Balanced(b: Box) {
    b.inflight + |Uncounted(b)| == Queued(b) + Held(b)
  }

  predicate Inv(b: Box) {
    && Fifo(b) && Exclusion(b) && SentinelLast(b) && CallsHonest(b) && OneJobPerCall(b) && InOrder(b) && Balanced(b)
  }

  // ----------------------------------------------------- every step keeps it

  lemma FifoKept(b: Box, e: Event)
    requires Fifo(b)
    ensures Fifo(Step(b, e))
  {
    if e.Receive? && b.queue != [] {
      assert b.taken + b.queue == (b.taken + [b.queue[0]]) + b.queue[1..];
    }
  }

  lemma ExclusionKept(b: Box, e: Event)
    requires Exclusion(b)
    ensures Exclusion(Step(b, e))
  {
  }

  lemma SentinelKept(b: Box, e: Event)
    requires Exclusion(b) && SentinelLast(b)
    ensures SentinelLast(Step(b, e))
  {
    var a := Step(b, e);
    if a.sent != b.sent {
      var item := a.sent[|b.sent|];
      assert a.sent == b.sent + [item];
      assert Sentinel !in b.sent;
    }
  }

  lemma HonestCarries(b: Box, a: Box, t: nat, c: Call)
    requires Honest(b, t, c) && (t in b.executed ==> t in a.executed) && (b.isClosed ==> a.isClosed)
    requires forall fn :: IsIn(a, t, fn) <==> IsIn(b, t, fn)
    ensures Honest(a, t, c)
  {
    assert IsIn(a, t, true) <==> IsIn(b, t, true);
    assert IsIn(a, t, false) <==> IsIn(b, t, false);
  }

  lemma HonestKeptOutside(b: Box, e: Event)
    requires CallsHonest(b) && (OfWorker(e) || OfClose(e))
    ensures CallsHonest(Step(b, e))
  {
    var a := Step(b, e);
    hide Room, NoReader;
    assert forall x :: x in b.executed ==> x in a.executed;
    assert forall x: Item :: x.Work? ==> (x in a.sent <==> x in b.sent);
    forall t | t in a.calls ensures Honest(a, t, a.calls[t]) {
      HonestCarries(b, a, t, b.calls[t]);
    }
  }

  lemma UnknownCall(b: Box, t: nat, fn: bool)
    requires OneJobPerCall(b) && t !in b.calls
    ensures !IsIn(b, t, fn)
  {
  }

  lemma HonestKeptInside(b: Box, e: Event)
    requires CallsHonest(b) && OneJobPerCall(b) && InOrder(b) && !OfWorker(e) && !OfClose(e)
    ensures CallsHonest(Step(b, e))
  {
    hide Room, OneJobPerCall;
    var a := Step(b, e);
    if a == b { return; }
    assert a.executed == b.executed;
    if e.Begin? { UnknownCall(b, e.call, true); UnknownCall(b, e.call, false); }
    else { assert Honest(b, e.call, b.calls[e.call]); }
    forall t | t in a.calls ensures Honest(a, t, a.calls[t]) {
      if t != e.call {
        HonestCarries(b, a, t, b.calls[t]);
      }
    }
  }

  lemma OneJobKept(b: Box, e: Event)
    requires CallsHonest(b) && OneJobPerCall(b)
    ensures OneJobPerCall(Step(b, e))
  {
    var a := Step(b, e);
    hide Room, NoReader;
    if e.Send? && a != b {
      assert Honest(b, e.call, b.calls[e.call]);
      forall i | 0 <= i < |b.sent| && b.sent[i].Work? ensures b.sent[i].call != e.call {
        assert b.sent[i] in b.sent;
        assert !IsIn(b, e.call, b.sent[i].fn);
      }
    }
  }

  lemma OrderKept(b: Box, e: Event)
    requires Fifo(b) && InOrder(b)
    ensures InOrder(Step(b, e))
  {
    var a := Step(b, e);
    if e.Execute? && b.worker.Running? {
      assert a.executed[|b.executed|] == b.worker.call;
      assert forall x :: x in b.executed ==> x in a.executed;
    }
  }

  /** Without a sentinel in the channel every queued item is a job. */
  lemma AllJobs(b: Box)
    requires Fifo(b) && Sentinel !in b.sent
    ensures Queued(b) == |b.queue|
  {
    if b.queue != [] { assert b.queue[|b.queue| - 1] in b.sent; }
  }

  lemma BalanceKeptInside(b: Box, e: Event)
    requires Fifo(b) && Exclusion(b) && SentinelLast(b) && Balanced(b) && !OfWorker(e) && !OfClose(e)
    ensures Balanced(Step(b, e))
  {
    hide Room, NoReader;
    var a := Step(b, e);
    if e.Send? && a != b {
      StillOpen(b, e.call);
      AllJobs(b);
      SentBalances(b, e.call);
    } else if e.Count? && a != b {
      CountedBalances(b, e.call);
    } else {
      assert Uncounted(a) == Uncounted(b);
    }
  }

  lemma CountedBalances(b: Box, t: nat)
    requires t in b.calls && b.calls[t].Sent? && Balanced(b)
    ensures var c := b.calls[t];
      Balanced(Moved(b, t, Counted(c.kind, c.fn)).(inflight := b.inflight + 1))
  {
    var a := Moved(b, t, Counted(b.calls[t].kind, b.calls[t].fn)).(inflight := b.inflight + 1);
    assert Uncounted(b) == Uncounted(a) + {t};
  }

  /** While a caller is admitting no sentinel has been sent. */
  lemma StillOpen(b: Box, t: nat)
    requires Exclusion(b) && SentinelLast(b) && t in b.calls && Reading(b.calls[t])
    ensures Sentinel !in b.sent
  {
  }

  lemma SentBalances(b: Box, t: nat)
    requires t in b.calls && b.calls[t].Locked? && Balanced(b) && Queued(b) == |b.queue|
    ensures var c := b.calls[t];
      Balanced(Moved(Enqueue(b, Work(t, c.fn)), t, Sent(c.kind, c.fn)))
  {
    var a := Moved(Enqueue(b, Work(t, b.calls[t].fn)), t, Sent(b.calls[t].kind, b.calls[t].fn));
    assert Uncounted(a) == Uncounted(b) + {t};
  }

  lemma BalanceKeptOutside(b: Box, e: Event)
    requires Fifo(b) && SentinelLast(b) && InOrder(b) && Balanced(b) && (OfWorker(e) || OfClose(e))
    ensures Balanced(Step(b, e))
  {
    if e.Receive? {
      ReceiveBalances(b);
    } else if e.CloseSend? {
      SentinelBalances(b);
    } else {
      hide InOrder, Fifo, SentinelLast, Room, NoReader;
      assert Step(b, e).calls == b.calls;
      SameUncounted(b, Step(b, e));
      if e.Execute? || e.Signal? || e.Decrement? { TurnBalances(b, e); }
    }
  }

  lemma SameUncounted(b: Box, a: Box)
    requires a.calls == b.calls
    ensures Uncounted(a) == Uncounted(b)
  {
  }

  lemma TurnBalances(b: Box, e: Event)
    requires Balanced(b) && (e.Execute? || e.Signal? || e.Decrement?)
    ensures Balanced(Step(b, e))
  {
    hide Uncounted;
    SameUncounted(b, Step(b, e));
  }

  lemma SentinelBalances(b: Box)
    requires SentinelLast(b) && Fifo(b) && Balanced(b)
    ensures Balanced(Step(b, CloseSend))
  {
    hide Uncounted, Room, NoReader;
    SameUncounted(b, Step(b, CloseSend));
    if Step(b, CloseSend) != b { AllJobs(b); }
  }

  lemma ReceiveBalances(b: Box)
    requires Fifo(b) && SentinelLast(b) && InOrder(b) && Balanced(b)
    ensures Balanced(Step(b, Receive))
  {
    hide Fifo, InOrder, Uncounted;
    var a := Step(b, Receive);
    SameUncounted(b, a);
    if a != b {
      QueueIsSent(b);
      assert a.taken[|a.taken| - 1] == b.queue[0];
      if |b.queue| > 1 { assert a.queue[|a.queue| - 1] == b.queue[|b.queue| - 1]; }
    }
  }

  lemma QueueIsSent(b: Box)
    requires Fifo(b) && b.queue != []
    ensures |b.taken| < |b.sent| && b.queue[0] == b.sent[|b.taken|] && |b.sent| == |b.taken| + |b.queue|
  {
  }

  /** Every step of every goroutine keeps the invariant. */
  lemma StepKeeps(b: Box, e: Event)
    requires Inv(b)
    ensures Inv(Step(b, e))
  {
    hide Fifo, Exclusion, SentinelLast, CallsHonest, OneJobPerCall, InOrder, Balanced, Step, OfWorker, OfClose;
    FifoKept(b, e);
    ExclusionKept(b, e);
    SentinelKept(b, e);
    OneJobKept(b, e);
    OrderKept(b, e);
    if OfWorker(e) || OfClose(e) {
      HonestKeptOutside(b, e);
      BalanceKeptOutside(b, e);
    } else {
      HonestKeptInside(b, e);
      BalanceKeptInside(b, e);
    }
  }

  lemma {:induction false} RunKeeps(b: Box, es: seq<Event>)
    requires Inv(b)
    ensures Inv(RunAll(b, es))
    decreases |es|
  {
    hide Inv, Step;
    if es != [] {
      StepKeeps(b, es[0]);
      RunKeeps(Step(b, es[0]), es[1..]);
    }
  }

  lemma NewIsGood(queueSize: int)
    ensures Inv(NewMailbox(queueSize))
  {
    assert Uncounted(NewMailbox(queueSize)) == {};
  }

  /** A box some run of goroutines reaches. */
  ghost predicate Reachable(b: Box) {
    exists queueSize, es :: b == RunAll(NewMailbox(queueSize), es)
  }

  lemma ReachableKeeps(b: Box)
    requires Reachable(b)
    ensures Inv(b)
  {
    hide Inv;
    var queueSize, es :| b == RunAll(NewMailbox(queueSize), es);
    NewIsGood(queueSize);
    RunKeeps(NewMailbox(queueSize), es);
  }

  // ------------------------------------------------------------- the theorems

  /** The calls whose jobs these items are, in order. */
  function Calls(items: seq<Item>): (r: seq<nat>)
    ensures |r| <= |items|
  {
    if items == [] then []
    else if items[|items| - 1].Work? then Calls(items[..|items| - 1]) + [items[|items| - 1].call]
    else Calls(items[..|items| - 1])
  }

  predicate Callable(item: Item) { item.Work? && item.fn }

  lemma {:induction false} CallsOfPrefix(taken: seq<Item>, executed: seq<nat>)
    requires |executed| == |taken|
    requires forall i :: 0 <= i < |executed| ==> taken[i] == Work(executed[i], true)
    ensures Calls(taken) == executed
  {
    if taken != [] {
      var n := |taken| - 1;
      CallsOfPrefix(taken[..n], executed[..n]);
      assert executed == executed[..n] + [executed[n]];
    }
  }

  /** Admitted jobs run in the order they were admitted, each at most once: what ran
      is a prefix of what was admitted, and no call appears twice. */
  lemma RunsInAdmissionOrder(b: Box)
    requires Reachable(b)
    ensures b.executed <= Calls(b.sent)
    ensures forall i, j :: 0 <= i < j < |b.executed| ==> b.executed[i] != b.executed[j]
  {
    ReachableKeeps(b);
    var n := |b.executed|;
    assert b.sent[..n] == b.taken[..n];
    CallsOfPrefix(b.sent[..n], b.executed);
    CallsGrow(b.sent, n);
    forall i, j | 0 <= i < j < n ensures b.executed[i] != b.executed[j] {
      assert b.sent[i] == b.taken[i] && b.sent[j] == b.taken[j];
    }
  }

  lemma {:induction false} CallsGrow(items: seq<Item>, n: nat)
    requires n <= |items|
    ensures Calls(items[..n]) <= Calls(items)
    decreases |items|
  {
    if n < |items| {
      var m := |items| - 1;
      assert items[..m][..n] == items[..n];
      CallsGrow(items[..m], n);
    } else {
      assert items[..n] == items;
    }
  }

  predicate NilAdmitted(b: Box) {
    exists i :: 0 <= i < |b.sent| && b.sent[i].Work? && !b.sent[i].fn
  }

  /** When Close has returned, or the worker has stopped, every admitted job has run and
      nothing is left in the channel, if and only if no call ever passed a nil function:
      the worker takes a nil function for the close sentinel. */
  lemma NothingLeftBehindIff(b: Box)
    requires Reachable(b) && (b.worker.Stopped? || b.closing.Closed?)
    ensures b.executed == Calls(b.sent) && b.queue == [] <==> !NilAdmitted(b)
  {
    ReachableKeeps(b);
    var n := |b.executed|;
    assert b.sent[..n] == b.taken[..n] && b.sent[n] == b.taken[n];
    CallsOfPrefix(b.sent[..n], b.executed);
    if b.sent[n].Sentinel? {
      assert n == |b.sent| - 1;
      forall i | 0 <= i < |b.sent| && b.sent[i].Work? ensures b.sent[i].fn {
        assert b.sent[i] == b.taken[i];
      }
    } else {
      assert !b.sent[n].fn;
      assert b.sent[..n + 1][..n] == b.sent[..n];
      assert Calls(b.sent[..n + 1]) == b.executed + [b.sent[n].call];
      CallsGrow(b.sent, n + 1);
    }
  }

  /** A call that reports an error never runs; Submit reporting success means the job
      is in the channel or past it; Do returns only after its job has run. */
  lemma OutcomesAreTrue(b: Box, t: nat)
    requires Reachable(b) && t in b.calls && b.calls[t].Over?
    ensures b.calls[t].outcome.Finished? ==> t in b.executed
    ensures b.calls[t].outcome.Admitted? ==> t in Calls(b.sent)
    ensures b.calls[t].outcome.ErrClosed? || b.calls[t].outcome.ErrFull? || b.calls[t].outcome.Cancelled? ==>
      t !in Calls(b.sent) && t !in b.executed
    ensures b.calls[t].outcome.ErrClosed? ==> b.isClosed
  {
    ReachableKeeps(b);
    assert Honest(b, t, b.calls[t]);
    CallsHave(b.sent, t);
    RunsInAdmissionOrder(b);
    if t in b.executed {
      var i :| 0 <= i < |b.executed| && b.executed[i] == t;
      assert Calls(b.sent)[i] == t;
    }
  }

  /** What a call reports has its cause at the moment it is decided: a closed mailbox, a
      channel without room and without a waiting worker for Submit, a cancelled context
      for Do, a counted send, or a finished job; and it is not taken back. */
  lemma OutcomesHaveACause(b: Box, e: Event, t: nat)
    requires t in Step(b, e).calls && Step(b, e).calls[t].Over?
    ensures t in b.calls && b.calls[t].Over? ==> Step(b, e).calls[t] == b.calls[t]
    ensures !(t in b.calls && b.calls[t].Over?) ==>
      match Step(b, e).calls[t].outcome
      case ErrClosed => t !in b.calls && b.isClosed
      case ErrFull =>
        && t in b.calls && b.calls[t].Locked? && b.calls[t].kind == ForSubmit
        && |b.queue| >= b.capacity && !(b.worker == Receiving && b.queue == [])
      case Cancelled => e == Cancel(t) && t in b.calls && b.calls[t].Locked? && b.calls[t].kind == ForDo
      case Admitted => t in b.calls && b.calls[t].Counted? && b.calls[t].kind == ForSubmit
      case Finished => t in b.calls && b.calls[t].Awaiting? && t in b.done
  {
  }

  lemma RunFour(b: Box, e: Event, f: Event, g: Event, h: Event)
    ensures RunAll(b, [e, f, g, h]) == Step(Step(Step(Step(b, e), f), g), h)
    ensures RunAll(b, [e, f]) == Step(Step(b, e), f)
  {
    hide Step;
    assert [e, f, g, h][1..] == [f, g, h] && [f, g, h][1..] == [g, h] && [g, h][1..] == [h] && [h][1..] == [];
    assert [e, f][1..] == [f] && [f][1..] == [];
    assert RunAll(Step(b, e), [f]) == RunAll(Step(Step(b, e), f), []);
    assert RunAll(Step(b, e), [f, g, h]) == RunAll(Step(Step(b, e), f), [g, h]);
    assert RunAll(Step(Step(b, e), f), [g, h]) == RunAll(Step(Step(Step(b, e), f), g), [h]);
    assert RunAll(Step(Step(Step(b, e), f), g), [h]) == RunAll(Step(Step(Step(Step(b, e), f), g), h), []);
  }

  /** What four undisturbed steps of a call do. */
  function Admitting(b: Box, t: nat, kind: Kind, fn: bool): Box {
    b.(calls := b.calls[t := if kind.ForDo? then Awaiting(fn) else Over(Admitted)], inflight := b.inflight + 1,
       queue := b.queue + [Work(t, fn)], sent := b.sent + [Work(t, fn)])
  }

  lemma EntryStep(b: Box, t: nat, kind: Kind, fn: bool)
    requires t !in b.calls && !b.closing.Holding? && !b.isClosed
    ensures Step(b, Begin(t, kind, fn)) == Moved(b, t, Locked(kind, fn))
  {
  }

  lemma SendStep(b: Box, t: nat, kind: Kind, fn: bool)
    requires t in b.calls && b.calls[t] == Locked(kind, fn) && Room(b)
    ensures Step(b, Send(t)) == Moved(Enqueue(b, Work(t, fn)), t, Sent(kind, fn))
  {
  }

  lemma CountStep(b: Box, t: nat, kind: Kind, fn: bool)
    requires t in b.calls && b.calls[t] == Sent(kind, fn)
    ensures Step(b, Count(t)) == Moved(b, t, Counted(kind, fn)).(inflight := b.inflight + 1)
  {
  }

  lemma ReleaseStep(b: Box, t: nat, kind: Kind, fn: bool)
    requires t in b.calls && b.calls[t] == Counted(kind, fn)
    ensures Step(b, Release(t)) == Moved(b, t, if kind.ForDo? then Awaiting(fn) else Over(Admitted))
  {
  }

  lemma WakeStep(b: Box, t: nat, fn: bool)
    requires t in b.calls && b.calls[t] == Awaiting(fn)
    ensures Step(b, Wake(t)) == if t in b.done then Moved(b, t, Over(Finished)) else b
  {
  }

  lemma AdmitSteps(b: Box, t: nat, kind: Kind, fn: bool)
    requires t !in b.calls && !b.closing.Holding? && !b.isClosed && Room(b)
    ensures Step(Step(Step(Step(b, Begin(t, kind, fn)), Send(t)), Count(t)), Release(t)) == Admitting(b, t, kind, fn)
  {
    hide Room, NoReader, Step;
    EntryStep(b, t, kind, fn);
    var c := Step(b, Begin(t, kind, fn));
    assert Room(c) by { RoomAlike(b, c); }
    SendStep(c, t, kind, fn);
    var d := Step(c, Send(t));
    CountStep(d, t, kind, fn);
    var u := Step(d, Count(t));
    ReleaseStep(u, t, kind, fn);
    assert Step(u, Release(t)).calls == b.calls[t := if kind.ForDo? then Awaiting(fn) else Over(Admitted)];
  }

  lemma RoomAlike(b: Box, c: Box)
    requires b.queue == c.queue && b.capacity == c.capacity && b.worker == c.worker
    ensures Room(b) <==> Room(c)
  {
  }

  /** A Submit nobody disturbs: refused as closed, refused as full, or admitted, with its
      job as the last one in the channel and counted. */
  lemma SubmitAlone(b: Box, t: nat, fn: bool)
    requires t !in b.calls && !b.closing.Holding?
    ensures
      if b.isClosed then Step(b, Begin(t, ForSubmit, fn)) == b.(calls := b.calls[t := Over(ErrClosed)])
      else if |b.queue| < b.capacity || (b.worker == Receiving && b.queue == []) then
        RunAll(b, [Begin(t, ForSubmit, fn), Send(t), Count(t), Release(t)]) ==
        b.(calls := b.calls[t := Over(Admitted)], inflight := b.inflight + 1,
           queue := b.queue + [Work(t, fn)], sent := b.sent + [Work(t, fn)])
      else RunAll(b, [Begin(t, ForSubmit, fn), Full(t)]) == b.(calls := b.calls[t := Over(ErrFull)])
  {
    RunFour(b, Begin(t, ForSubmit, fn), Send(t), Count(t), Release(t));
    RunFour(b, Begin(t, ForSubmit, fn), Full(t), Count(t), Release(t));
    if b.isClosed {
      hide RunAll;
    } else if Room(b) {
      hide RunAll, Step;
      AdmitSteps(b, t, ForSubmit, fn);
    } else {
      hide RunAll;
      var c := Step(b, Begin(t, ForSubmit, fn));
      assert c == b.(calls := b.calls[t := Locked(ForSubmit, fn)]);
      assert Step(c, Full(t)).calls == b.calls[t := Over(ErrFull)];
    }
  }

  lemma TurnSteps(c: Box)
    requires c.worker == Receiving && c.queue != [] && c.queue[0].Work? && c.queue[0].fn
    ensures Step(Step(Step(Step(c, Receive), Execute), Signal), Decrement) ==
      c.(queue := c.queue[1..], taken := c.taken + [c.queue[0]], executed := c.executed + [c.queue[0].call],
         done := c.done + {c.queue[0].call}, inflight := c.inflight - 1)
  {
    hide Room, NoReader;
    var d := Step(c, Receive);
    assert d == c.(queue := c.queue[1..], taken := c.taken + [c.queue[0]], worker := Running(c.queue[0].call));
    var u := Step(d, Execute);
    assert u == d.(executed := d.executed + [c.queue[0].call], worker := Ran(c.queue[0].call));
    var v := Step(u, Signal);
    assert v == u.(done := u.done + {c.queue[0].call}, worker := Signalled(c.queue[0].call));
  }

  /** A Do nobody disturbs, with a free worker: it does not return before its job is
      done, and then its job has run once and is counted off. */
  lemma DoAlone(b: Box, t: nat) returns (c: Box, d: Box)
    requires t !in b.calls && !b.closing.Holding? && !b.isClosed && b.worker == Receiving && b.queue == []
    requires t !in b.done
    ensures c == RunAll(b, [Begin(t, ForDo, true), Send(t), Count(t), Release(t)]) && Step(c, Wake(t)) == c
    ensures t in c.calls && c.calls[t] == Awaiting(true)
    ensures d == RunAll(c, [Receive, Execute, Signal, Decrement])
    ensures d.executed == b.executed + [t] && d.inflight == b.inflight && d.worker == Receiving && d.queue == []
    ensures Step(d, Wake(t)) == d.(calls := b.calls[t := Over(Finished)])
  {
    hide RunAll, Step;
    c := RunAll(b, [Begin(t, ForDo, true), Send(t), Count(t), Release(t)]);
    RunFour(b, Begin(t, ForDo, true), Send(t), Count(t), Release(t));
    d := RunAll(c, [Receive, Execute, Signal, Decrement]);
    RunFour(c, Receive, Execute, Signal, Decrement);
    AdmitSteps(b, t, ForDo, true);
    assert c == b.(calls := b.calls[t := Awaiting(true)], inflight := b.inflight + 1,
                   queue := [Work(t, true)], sent := b.sent + [Work(t, true)]);
    TurnSteps(c);
    WakeStep(c, t, true);
    WakeStep(d, t, true);
    assert Step(d, Wake(t)).calls == b.calls[t := Over(Finished)];
  }

  lemma {:induction false} CallsHave(items: seq<Item>, t: nat)
    ensures t in Calls(items) <==> Work(t, true) in items || Work(t, false) in items
  {
    if items != [] {
      var n := |items| - 1;
      CallsHave(items[..n], t);
      assert items == items[..n] + [items[n]];
    }
  }

  /** What Idle promises: no job is queued or running. */
  predicate Quiet(b: Box) { Queued(b) == 0 && Held(b) == 0 }

  /** inflight and the jobs sent but not yet counted together are the jobs queued and
      running. So Idle is wrong, and says yes with a job there, exactly when it says yes
      while a caller stands between its send and its count; and it is wrong, and says no
      with nothing there, exactly when the count is below zero by all such callers. */
  lemma InflightBalances(b: Box)
    requires Reachable(b)
    ensures b.inflight + |Uncounted(b)| == Queued(b) + Held(b)
    ensures b.inflight == 0 && !Quiet(b) <==> b.inflight == 0 && Uncounted(b) != {}
    ensures b.inflight != 0 && Quiet(b) <==> Uncounted(b) != {} && b.inflight == -|Uncounted(b)|
  {
    ReachableKeeps(b);
  }

  /** Between the send and the count Idle can say yes with a job waiting. */
  lemma IdleCanBeEarly()
    ensures exists b :: Reachable(b) && b.inflight == 0 && Queued(b) == 1
  {
    var es := [Begin(0, ForSubmit, true), Send(0)];
    var b := RunAll(NewMailbox(1), es);
    var b1 := Step(NewMailbox(1), es[0]);
    assert es[1..] == [Send(0)];
    assert b == RunAll(b1, [Send(0)]) == Step(b1, Send(0));
    assert Reachable(b);
  }

  /** After Close has set the flag no item but its own sentinel is ever sent, and once
      Close has returned the set of admitted jobs is final. */
  lemma ClosedAdmitsNothing(b: Box, es: seq<Event>)
    requires Inv(b) && b.isClosed
    ensures RunAll(b, es).isClosed && Calls(RunAll(b, es).sent) == Calls(b.sent)
    ensures b.closing.Closed? ==> RunAll(b, es).sent == b.sent
    decreases |es|
  {
    if es != [] {
      var a := Step(b, es[0]);
      StepKeeps(b, es[0]);
      ClosedOne(b, es[0]);
      ClosedAdmitsNothing(a, es[1..]);
    }
  }

  lemma ClosedOne(b: Box, e: Event)
    requires Inv(b) && b.isClosed
    ensures Step(b, e).isClosed && Calls(Step(b, e).sent) == Calls(b.sent)
    ensures b.closing.Closed? ==> Step(b, e).sent == b.sent && Step(b, e).closing.Closed?
  {
    hide Room, Fifo, SentinelLast, CallsHonest, OneJobPerCall, InOrder, Balanced;
    if e.CloseSend? && Step(b, e) != b {
      assert Step(b, e).sent[..|b.sent|] == b.sent;
    }
  }

  // ------------------------------------------------- every admitted job does run

  /** The worker's steps for one item. */
  function Turn(): seq<Event> { [Receive, Execute, Signal, Decrement] }

  function Turns(n: nat): seq<Event> { if n == 0 then [] else Turn() + Turns(n - 1) }

  lemma {:induction false} RunAllSplits(b: Box, xs: seq<Event>, ys: seq<Event>)
    ensures RunAll(b, xs + ys) == RunAll(RunAll(b, xs), ys)
    decreases |xs|
  {
    hide Step;
    if xs == [] {
      assert xs + ys == ys;
    } else {
      assert (xs + ys)[0] == xs[0] && (xs + ys)[1..] == xs[1..] + ys;
      RunAllSplits(Step(b, xs[0]), xs[1..], ys);
    }
  }

  lemma OneTurn(b: Box)
    requires b.worker.Receiving? && b.queue != [] && Callable(b.queue[0])
    ensures var a := RunAll(b, Turn());
      a.worker.Receiving? && a.queue == b.queue[1..] && a.sent == b.sent && a.executed == b.executed + [b.queue[0].call]
  {
    assert Turn() == [Receive, Execute, Signal, Decrement];
    RunFour(b, Receive, Execute, Signal, Decrement);
    hide RunAll, Step;
    TurnSteps(b);
  }

  /** Left to itself between jobs, the worker runs every queued job, in order: one turn
      for each, until the queue is empty or its next item stops it. */
  lemma {:induction false} WorkerDrains(b: Box, n: nat)
    requires b.worker.Receiving? && n <= |b.queue| && forall i :: 0 <= i < n ==> Callable(b.queue[i])
    ensures var a := RunAll(b, Turns(n));
      && a.worker.Receiving? && a.queue == b.queue[n..] && a.sent == b.sent
      && a.executed == b.executed + Calls(b.queue[..n])
    decreases n, 1
  {
    hide Step, Turn, Callable;
    if n == 0 {
      assert b.queue[..0] == [];
    } else {
      DrainRest(b, n, RunAll(b, Turn()));
    }
  }

  lemma FirstCall(queue: seq<Item>, n: nat)
    requires 0 < n <= |queue| && Callable(queue[0])
    ensures Calls(queue[..n]) == [queue[0].call] + Calls(queue[1..][..n - 1])
  {
    CallsFirst(queue[..n]);
    assert queue[..n][1..] == queue[1..][..n - 1];
  }

  lemma DrainRest(b: Box, n: nat, a: Box)
    requires b.worker.Receiving? && 0 < n <= |b.queue| && forall i :: 0 <= i < n ==> Callable(b.queue[i])
    requires a == RunAll(b, Turn())
    ensures var z := RunAll(b, Turns(n));
      && z.worker.Receiving? && z.queue == b.queue[n..] && z.sent == b.sent
      && z.executed == b.executed + Calls(b.queue[..n])
    decreases n, 0
  {
    hide Step, Turn, RunAll, Calls, Callable;
    RunAllSplits(b, Turn(), Turns(n - 1));
    OneTurn(b);
    WorkerDrains(a, n - 1);
    assert b.queue[1..][n - 1..] == b.queue[n..];
    assert Callable(b.queue[0]);
    FirstCall(b.queue, n);
  }

  lemma FinishCurrent(b: Box)
    requires !b.worker.Stopped?
    ensures var a := RunAll(b, [Execute, Signal, Decrement]);
      a.worker.Receiving? && a.queue == b.queue && a.sent == b.sent
  {
    var t := [Execute, Signal, Decrement];
    var b1 := Step(b, Execute);
    var b2 := Step(b1, Signal);
    var b3 := Step(b2, Decrement);
    assert t[1..] == [Signal, Decrement] && t[1..][1..] == [Decrement] && t[1..][1..][1..] == [];
    assert RunAll(b, t) == RunAll(b1, t[1..]) == RunAll(b2, t[1..][1..]) == RunAll(b3, []);
  }

  /** Every admitted job runs: from any reachable state whose worker has not stopped,
      finishing the current job and then one turn for each queued job has run all that
      was admitted, in admission order. */
  lemma EveryAdmittedJobRuns(b: Box)
    requires Reachable(b) && !b.worker.Stopped? && !NilAdmitted(b)
    ensures var z := RunAll(b, [Execute, Signal, Decrement] + Turns(Queued(b)));
      z.sent == b.sent && z.executed == Calls(b.sent)
  {
    hide Step, Turns, Calls;
    var first := [Execute, Signal, Decrement];
    var n := Queued(b);
    ReachableKeeps(b);
    RunAllSplits(b, first, Turns(n));
    FinishCurrent(b);
    var a := RunAll(b, first);
    QueuedJobs(b);
    WorkerDrains(a, n);
    var z := RunAll(a, Turns(n));
    RunKeeps(b, first + Turns(n));
    NothingQueued(z);
  }

  lemma QueuedJobs(b: Box)
    requires Inv(b) && !NilAdmitted(b)
    ensures Queued(b) <= |b.queue| && forall i :: 0 <= i < Queued(b) ==> Callable(b.queue[i])
    ensures b.queue[Queued(b)..] == [] || b.queue[Queued(b)..] == [Sentinel]
  {
    hide Exclusion, CallsHonest, OneJobPerCall, InOrder, Balanced;
    forall i | 0 <= i < Queued(b) ensures Callable(b.queue[i]) {
      QueuedItem(b, i);
    }
    if Queued(b) < |b.queue| {
      assert b.queue[|b.queue| - 1] == Sentinel;
    }
  }

  lemma QueuedItem(b: Box, i: nat)
    requires Fifo(b) && SentinelLast(b) && !NilAdmitted(b) && i < |b.queue|
    ensures Callable(b.queue[i]) || (b.queue[i] == Sentinel && i == |b.queue| - 1)
  {
    var k := |b.taken| + i;
    assert b.queue[i] == b.sent[k];
  }

  lemma NothingQueued(z: Box)
    requires Inv(z) && z.worker.Receiving? && (z.queue == [] || z.queue == [Sentinel])
    ensures z.executed == Calls(z.sent)
  {
    hide Exclusion, SentinelLast, CallsHonest, OneJobPerCall, Balanced;
    CallsOfPrefix(z.taken, z.executed);
    if z.queue == [] { assert z.sent == z.taken; }
    else { assert z.sent[..|z.taken|] == z.taken; }
  }

  lemma {:induction false} CallsFirst(items: seq<Item>)
    requires items != [] && items[0].Work?
    ensures Calls(items) == [items[0].call] + Calls(items[1..])
  {
    var n := |items| - 1;
    if n == 0 {
      assert items[..0] == [] && items[1..] == [];
    } else {
      CallsFirst(items[..n]);
      assert items[..n][1..] == items[1..][..n - 1];
      assert items[1..][n - 1] == items[n];
    }
  }
}
