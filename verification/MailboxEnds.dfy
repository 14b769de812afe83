/** Close returns and every Do wakes up: without new calls the goroutines of a mailbox
    only take boundedly many steps, and they only come to rest when everything is done,
    unless a nil function has stopped the worker. */
module MailboxEnds {
  import opened Mailbox

  // ------------------------------------------------------------- every step counts

  function Weight(c: Call): nat {
    match c
    case Locked(_, _) => 9
    case Sent(_, _) => 3
    case Counted(_, _) => 2
    case Awaiting(_) => 1
    case Over(_) => 0
  }

  ghost function Load(calls: map<nat, Call>, ts: set<nat>): nat
    requires ts <= calls.Keys
  {
    if ts == {} then 0 else var t :| t in ts; Weight(calls[t]) + Load(calls, ts - {t})
  }

  lemma {:induction false} LoadAt(calls: map<nat, Call>, ts: set<nat>, t: nat)
    requires ts <= calls.Keys && t in ts
    ensures Load(calls, ts) == Weight(calls[t]) + Load(calls, ts - {t})
    decreases ts
  {
    var u :| u in ts && Load(calls, ts) == Weight(calls[u]) + Load(calls, ts - {u});
    if u != t {
      LoadAt(calls, ts - {u}, t);
      LoadAt(calls, ts - {t}, u);
      assert ts - {u} - {t} == ts - {t} - {u};
    }
  }

  lemma {:induction false} LoadSame(calls: map<nat, Call>, other: map<nat, Call>, ts: set<nat>)
    requires ts <= calls.Keys && ts <= other.Keys && forall t :: t in ts ==> calls[t] == other[t]
    ensures Load(calls, ts) == Load(other, ts)
    decreases ts
  {
    if ts != {} {
      var t :| t in ts;
      LoadAt(calls, ts, t);
      LoadAt(other, ts, t);
      LoadSame(calls, other, ts - {t});
    }
  }

  lemma LoadMoves(calls: map<nat, Call>, t: nat, c: Call)
    requires t in calls
    ensures Load(calls[t := c], calls[t := c].Keys) + Weight(calls[t]) == Load(calls, calls.Keys) + Weight(c)
  {
    var next := calls[t := c];
    assert next.Keys == calls.Keys;
    LoadAt(calls, calls.Keys, t);
    LoadAt(next, calls.Keys, t);
    LoadSame(calls, next, calls.Keys - {t});
  }

  function Toil(w: Worker): nat {
    match w
    case Receiving => 0
    case Running(_) => 4
    case Ran(_) => 3
    case Signalled(_) => 2
    case Stopped => 0
  }

  function Left(c: Closing): nat {
    match c
    case NotYet => 0
    case Locking => 9
    case Holding => 8
    case Sending => 7
    case Joining => 1
    case Closed => 0
  }

  /** A bound on the steps that can still be taken. */
  ghost function Measure(b: Box): nat {
    Load(b.calls, b.calls.Keys) + 5 * |b.queue| + Toil(b.worker) + Left(b.closing)
  }

  /** A new call of Submit, Do or Close. */
  predicate NewCall(e: Event) { e.Begin? || e.CloseCall? }

  lemma MoveCounts(b: Box, e: Event)
    requires !NewCall(e) && Step(b, e) != b
    ensures Measure(Step(b, e)) < Measure(b)
  {
    hide Room, NoReader;
    if !OfWorker(e) && !OfClose(e) {
      LoadMoves(b.calls, e.call, Step(b, e).calls[e.call]);
    }
  }

  /** Every event of the run changes the state, and none is a new call. */
  predicate Moving(b: Box, es: seq<Event>)
    decreases |es|
  {
    es == [] || (!NewCall(es[0]) && Step(b, es[0]) != b && Moving(Step(b, es[0]), es[1..]))
  }

  /** Without new calls only boundedly many steps are possible, in any order. */
  lemma {:induction false} MovesEnd(b: Box, es: seq<Event>)
    requires Moving(b, es)
    ensures |es| + Measure(RunAll(b, es)) <= Measure(b)
    decreases |es|
  {
    hide Step, Measure;
    if es != [] {
      MoveCounts(b, es[0]);
      MovesEnd(Step(b, es[0]), es[1..]);
    }
  }

  // ------------------------------------------------------------- what is signalled

  /** Whatever has run is signalled, but for the job the worker is about to signal. */
  predicate Signals(b: Box) {
    forall t :: t in b.executed ==> t in b.done || b.worker == Ran(t)
  }

  lemma SignalsKept(b: Box, e: Event)
    requires Signals(b)
    ensures Signals(Step(b, e))
  {
    hide Room, NoReader;
  }

  lemma {:induction false} SignalsRun(b: Box, es: seq<Event>)
    requires Signals(b)
    ensures Signals(RunAll(b, es))
    decreases |es|
  {
    hide Step, Signals;
    if es != [] {
      SignalsKept(b, es[0]);
      SignalsRun(Step(b, es[0]), es[1..]);
    }
  }

  lemma ReachableSignals(b: Box)
    requires Reachable(b)
    ensures Signals(b)
  {
    var queueSize, es :| b == RunAll(NewMailbox(queueSize), es);
    SignalsRun(NewMailbox(queueSize), es);
  }

  // ------------------------------------------------------------- coming to rest

  /** Nobody has passed a nil function or is about to. */
  predicate NoNil(b: Box) {
    !NilAdmitted(b) && forall t :: t in b.calls && b.calls[t].Locked? ==> b.calls[t].fn
  }

  /** A step some goroutine takes by itself; a cancelled context is not needed. */
  predicate Forced(e: Event) { !NewCall(e) && !e.Cancel? }

  ghost predicate Resting(b: Box) { forall e :: Forced(e) ==> Step(b, e) == b }

  predicate Done(b: Box) {
    && (forall t :: t in b.calls ==> b.calls[t].Over?)
    && (b.closing.NotYet? || b.closing.Closed?)
    && b.executed == Calls(b.sent) && b.queue == []
  }

  lemma WorkerRests(b: Box)
    requires Resting(b)
    ensures b.worker.Stopped? || (b.worker.Receiving? && b.queue == [])
  {
    assert Forced(Receive) && Forced(Execute) && Forced(Signal) && Forced(Decrement);
    assert Step(b, Receive) == b && Step(b, Execute) == b && Step(b, Signal) == b && Step(b, Decrement) == b;
  }

  lemma NobodyAdmits(b: Box)
    requires Resting(b) && Exclusion(b) && (b.isClosed || Room(b))
    ensures NoReader(b)
  {
    forall t | t in b.calls ensures !Reading(b.calls[t]) {
      assert Forced(Send(t)) && Forced(Count(t)) && Forced(Release(t));
      assert Step(b, Send(t)) == b && Step(b, Count(t)) == b && Step(b, Release(t)) == b;
    }
  }

  lemma ClosingRests(b: Box)
    requires Resting(b) && NoReader(b) && (Room(b) || b.worker.Stopped?)
    requires b.worker.Stopped? ==> b.closing.Joining? || b.closing.Closed?
    ensures b.closing.NotYet? || b.closing.Closed? || (b.closing.Joining? && !b.worker.Stopped?)
  {
    assert Forced(CloseLock) && Forced(CloseSet) && Forced(CloseSend) && Forced(CloseJoin);
    assert Step(b, CloseLock) == b && Step(b, CloseSet) == b && Step(b, CloseSend) == b && Step(b, CloseJoin) == b;
  }

  lemma StoppedBySentinel(b: Box)
    requires Inv(b) && b.worker.Stopped? && !NilAdmitted(b)
    ensures b.queue == [] && (b.closing.Joining? || b.closing.Closed?) && b.isClosed
  {
    hide CallsHonest, OneJobPerCall, Balanced;
    var n := |b.taken| - 1;
    assert b.sent[n] == b.taken[n];
    assert b.sent[n].Sentinel?;
    assert Sentinel in b.sent;
  }

  lemma AllExecuted(b: Box)
    requires Inv(b) && b.queue == [] && (b.worker.Receiving? || b.worker.Stopped?) && !NilAdmitted(b)
    ensures b.executed == Calls(b.sent) && (b.worker.Receiving? ==> Sentinel !in b.sent)
  {
    hide CallsHonest, OneJobPerCall, Balanced, Exclusion;
    assert b.sent == b.taken;
    if b.worker.Receiving? {
      CallsOfPrefix(b.taken, b.executed);
    } else {
      var n := |b.executed|;
      assert b.sent[n] == b.taken[n];
      CallsOfPrefix(b.taken[..n], b.executed);
      assert b.sent == b.sent[..n] + [b.sent[n]];
      assert b.sent[n].Sentinel?;
    }
  }

  lemma NobodyWaits(b: Box)
    requires Resting(b) && Inv(b) && Signals(b) && NoReader(b) && b.executed == Calls(b.sent) && !b.worker.Ran?
    ensures forall t :: t in b.calls ==> b.calls[t].Over?
  {
    hide Fifo, Exclusion, SentinelLast, OneJobPerCall, InOrder, Balanced;
    forall t | t in b.calls ensures b.calls[t].Over? {
      assert Forced(Wake(t)) && Step(b, Wake(t)) == b;
      assert Honest(b, t, b.calls[t]);
      CallsHave(b.sent, t);
    }
  }

  /** The goroutines only come to rest when every call has returned, Close has returned if
      it was called, and everything admitted has run. */
  lemma RestIsDone(b: Box)
    requires Reachable(b) && NoNil(b) && Resting(b)
    ensures Done(b)
  {
    ReachableKeeps(b);
    ReachableSignals(b);
    hide Inv, Resting, Signals, NilAdmitted, Step;
    WorkerRests(b);
    if b.worker.Stopped? { StoppedBySentinel(b); }
    AllExecuted(b);
    OpenParts(b);
    NobodyAdmits(b);
    ClosingRests(b);
    NobodyWaits(b);
  }

  lemma OpenParts(b: Box)
    requires Inv(b)
    ensures Exclusion(b) && (b.closing.Joining? || b.closing.Closed? <==> Sentinel in b.sent)
    ensures b.closing.Closed? ==> b.worker.Stopped?
  {}

  lemma NoNilKept(b: Box, e: Event)
    requires NoNil(b) && !NewCall(e)
    ensures NoNil(Step(b, e))
  {
    hide Room, NoReader;
    var a := Step(b, e);
    forall i | 0 <= i < |a.sent| && a.sent[i].Work? ensures a.sent[i].fn {
      if i < |b.sent| { assert a.sent[i] == b.sent[i]; }
    }
  }

  lemma ReachMore(b: Box, e: Event)
    requires Reachable(b)
    ensures Reachable(Step(b, e))
  {
    hide Step;
    var queueSize, es :| b == RunAll(NewMailbox(queueSize), es);
    RunAllSplits(NewMailbox(queueSize), es, [e]);
    assert RunAll(b, [e]) == RunAll(Step(b, e), []);
  }

  /** What a step never undoes: Close was called, and a Do that waits can only finish. */
  predicate Continues(b: Box, z: Box) {
    && (!b.closing.NotYet? ==> !z.closing.NotYet?)
    && (forall t :: t in b.calls ==> t in z.calls)
    && (forall t :: t in b.calls && Waiting(b.calls[t]) ==> Waiting(z.calls[t]))
  }

  predicate Waiting(c: Call) { c.Awaiting? || c == Over(Finished) }

  lemma StepContinues(b: Box, e: Event)
    ensures Continues(b, Step(b, e))
  {
    hide Room, NoReader;
  }

  /** From any reachable state in which nobody passes a nil function, whatever order the
      goroutines take their steps in: once they come to rest, Close has returned if it was
      called, every call has returned, every waiting Do with success, and everything
      admitted has run. */
  lemma {:induction false} EverythingEnds(b: Box, es: seq<Event>)
    requires Reachable(b) && NoNil(b) && Moving(b, es) && Resting(RunAll(b, es))
    ensures var z := RunAll(b, es);
      && Done(z) && (!b.closing.NotYet? ==> z.closing.Closed?)
      && forall t :: t in b.calls ==> t in z.calls && (Waiting(b.calls[t]) ==> z.calls[t] == Over(Finished))
    decreases |es|
  {
    hide Step, Resting, NoNil, Reachable;
    if es == [] {
      RestIsDone(b);
    } else {
      ReachMore(b, es[0]);
      NoNilKept(b, es[0]);
      StepContinues(b, es[0]);
      EverythingEnds(Step(b, es[0]), es[1..]);
    }
  }

  /** And they do come to rest, after at most as many steps as the measure says. */
  lemma {:induction false} ComesToRest(b: Box) returns (es: seq<Event>)
    ensures Moving(b, es) && Resting(RunAll(b, es)) && |es| <= Measure(b)
    decreases Measure(b)
  {
    hide Step, Measure;
    if e :| Forced(e) && Step(b, e) != b {
      MoveCounts(b, e);
      var more := ComesToRest(Step(b, e));
      es := [e] + more;
      assert es[1..] == more;
      MovesEnd(b, es);
    } else {
      es := [];
    }
  }

  // ------------------------------------------------------------- a nil function

  /** Once the worker has stopped nothing runs any more, and a Do that was not signalled
      waits for ever. */
  lemma {:induction false} StoppedForEver(b: Box, es: seq<Event>)
    requires b.worker.Stopped?
    ensures var z := RunAll(b, es);
      && z.worker.Stopped? && z.executed == b.executed && z.done == b.done
      && forall t :: t in b.calls && b.calls[t].Awaiting? && t !in b.done ==> t in z.calls && z.calls[t].Awaiting?
    decreases |es|
  {
    if es != [] {
      StoppedStep(b, es[0]);
      hide Step;
      StoppedForEver(Step(b, es[0]), es[1..]);
    }
  }

  lemma StoppedStep(b: Box, e: Event)
    requires b.worker.Stopped?
    ensures var z := Step(b, e);
      && z.worker.Stopped? && z.executed == b.executed && z.done == b.done
      && forall t :: t in b.calls && b.calls[t].Awaiting? && t !in b.done ==> t in z.calls && z.calls[t].Awaiting?
  {
    hide Room, NoReader;
  }

  /** A call of Submit or Do that finds room sends its job. */
  lemma Sends(b: Box, t: nat, kind: Kind, fn: bool) returns (a: Box)
    requires Reachable(b) && t !in b.calls && b.closing.NotYet? && !b.isClosed && |b.queue| < b.capacity
    ensures Reachable(a) && a == Moved(Enqueue(b, Work(t, fn)), t, Sent(kind, fn))
  {
    hide Reachable, WorkerStep, CloseStep, NoReader;
    a := Next(b, Begin(t, kind, fn));
    assert a == Moved(b, t, Locked(kind, fn));
    a := Next(a, Send(t));
  }

  /** It then counts its job and lets go of the lock. */
  lemma Admits(b: Box, t: nat, kind: Kind, fn: bool) returns (a: Box)
    requires Reachable(b) && t !in b.calls && b.closing.NotYet? && !b.isClosed && |b.queue| < b.capacity
    ensures Reachable(a)
    ensures a == Moved(Enqueue(b, Work(t, fn)), t, if kind.ForDo? then Awaiting(fn) else Over(Admitted))
                 .(inflight := b.inflight + 1)
  {
    hide Reachable, WorkerStep, CloseStep, NoReader;
    var sent := Enqueue(b, Work(t, fn));
    a := Sends(b, t, kind, fn);
    a := Next(a, Count(t));
    assert a == Moved(sent, t, Counted(kind, fn)).(inflight := b.inflight + 1);
    a := Next(a, Release(t));
  }

  /** A Submit of a nil function is admitted, then a Do, and the worker takes the first. */
  lemma NilThenDo() returns (b: Box)
    ensures Reachable(b) && b.worker.Stopped? && b.done == {} && b.executed == []
    ensures b.queue == [Work(1, true)] && 1 in b.calls && b.calls[1] == Awaiting(true)
  {
    b := NewMailbox(2);
    assert b == RunAll(b, []);
    b := Admits(b, 0, ForSubmit, false);
    b := Admits(b, 1, ForDo, true);
    b := Next(b, Receive);
  }

  lemma Next(b: Box, e: Event) returns (a: Box)
    requires Reachable(b)
    ensures a == Step(b, e) && Reachable(a)
  {
    hide Step;
    ReachMore(b, e);
    a := Step(b, e);
  }

  /** The failure happens: the worker takes the nil function for the close sentinel, and
      the Do admitted behind it never runs and never returns, whatever follows. */
  lemma NilLeavesJobBehind() returns (b: Box)
    ensures Reachable(b) && 1 in b.calls && b.calls[1] == Awaiting(true) && Work(1, true) in b.queue
    ensures forall es :: var z := RunAll(b, es); 1 !in z.executed && 1 in z.calls && z.calls[1].Awaiting?
  {
    b := NilThenDo();
    hide RunAll;
    forall es ensures var z := RunAll(b, es); 1 !in z.executed && 1 in z.calls && z.calls[1].Awaiting? {
      StoppedForEver(b, es);
    }
  }
}
