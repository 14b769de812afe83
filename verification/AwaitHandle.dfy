/** A suspended mailbox job and its continuation. The handle's fields change only under
    its lock; the machine below interleaves the locked parts of any number of callers. */
module AwaitHandle {
  import opened Common

  /** nil, or an error. */
  type Error = Option<nat>

  /** The locked fields; `closes` counts how often the done channel was closed. */
  datatype Fields = Fields(suspended: bool, resumed: bool, completed: bool, err: Error, closes: nat)

  datatype Verdict = Go | ErrClosed | NotSuspended | AlreadyResumed | ErrFull

  function Suspending(f: Fields): Fields {
    if f.completed then f else f.(suspended := true)
  }

  function Check(f: Fields): Verdict {
    if f.completed then ErrClosed else if !f.suspended then NotSuspended else if f.resumed then AlreadyResumed else Go
  }

  function Completing(f: Fields, err: Error): Fields {
    if f.completed then f else f.(completed := true, err := err, closes := f.closes + 1)
  }

  /** The handle as its methods see it, each taking the lock once. */
  class Handle {
    var suspended: bool
    var resumed: bool
    var completed: bool
    var err: Error
    var closes: nat

    constructor ()
      ensures Value() == Fields(false, false, false, None, 0)
    {
      suspended, resumed, completed, err, closes := false, false, false, None, 0;
    }

    function Value(): Fields
      reads this
    {
      Fields(suspended, resumed, completed, err, closes)
    }

    method Suspend()
      modifies this
      ensures Value() == Suspending(old(Value()))
      ensures suspended == (old(suspended) || !completed)
      ensures resumed == old(resumed) && completed == old(completed) && err == old(err) && closes == old(closes)
    {
      if !completed { suspended := true; }
    }

    /** Resume up to its unlock: only the caller that is told to go may submit. */
    method Reserve() returns (v: Verdict)
      modifies this
      ensures v == Check(old(Value()))
      ensures Value() == if v.Go? then old(Value()).(resumed := true) else old(Value())
      ensures v == Go <==> old(suspended) && !old(resumed) && !old(completed)
      ensures v == ErrClosed <==> old(completed)
      ensures v == NotSuspended <==> !old(completed) && !old(suspended)
      ensures v == AlreadyResumed <==> !old(completed) && old(suspended) && old(resumed)
    {
      if completed { return ErrClosed; }
      if !suspended { return NotSuspended; }
      if resumed { return AlreadyResumed; }
      resumed := true;
      return Go;
    }

    /** Resume after the mailbox refused the continuation. */
    method Unreserve()
      modifies this
      ensures Value() == old(Value()).(resumed := false)
    {
      resumed := false;
    }

    method Complete(e: Error)
      modifies this
      ensures Value() == Completing(old(Value()), e)
      ensures completed && suspended == old(suspended) && resumed == old(resumed)
      ensures err == (if old(completed) then old(err) else e)
      ensures closes == old(closes) + if old(completed) then 0 else 1
    {
      if completed { return; }
      completed := true;
      err := e;
      closes := closes + 1;
    }
  }

  // ------------------------------------------------------------- the machine

  /** The job BeginAwait submits: run fn, look at the flags, complete if need be. */
  datatype Initial = Running | Returned(runErr: Error) | Looked(runErr: Error, suspended: bool, completed: bool) | Done

  datatype Resumer = Submitting | Refused(full: bool) | Over(verdict: Verdict) | Admitted

  datatype World = World(handle: Fields, initial: Initial, resumers: map<nat, Resumer>, pending: set<nat>, ran: set<nat>)

  datatype Event =
    | Suspend
    | Return(runErr: Error) | Look | Settle
    | Resume(r: nat) | Accept(r: nat) | Refuse(r: nat, full: bool) | Reset(r: nat)
    | Continue(r: nat, err: Error)
    | Complete(err: Error)

  const START := World(Fields(false, false, false, None, 0), Running, map[], {}, {})

  function Step(w: World, e: Event): World {
    match e
    case Suspend => w.(handle := Suspending(w.handle))
    case Complete(err) => w.(handle := Completing(w.handle, err))
    case Return(runErr) => if w.initial.Running? then w.(initial := Returned(runErr)) else w
    case Look =>
      if w.initial.Returned? then w.(initial := Looked(w.initial.runErr, w.handle.suspended, w.handle.completed)) else w
    case Settle =>
      if !w.initial.Looked? then w
      else if w.initial.runErr.Some? then w.(initial := Done, handle := Completing(w.handle, w.initial.runErr))
      else if !w.initial.suspended && !w.initial.completed
      then w.(initial := Done, handle := Completing(w.handle, None))
      else w.(initial := Done)
    case Resume(r) =>
      if r in w.resumers then w
      else if Check(w.handle).Go?
      then w.(handle := w.handle.(resumed := true), resumers := w.resumers[r := Submitting])
      else w.(resumers := w.resumers[r := Over(Check(w.handle))])
    case Accept(r) =>
      if r in w.resumers && w.resumers[r].Submitting?
      then w.(resumers := w.resumers[r := Admitted], pending := w.pending + {r}) else w
    case Refuse(r, full) =>
      if r in w.resumers && w.resumers[r].Submitting? then w.(resumers := w.resumers[r := Refused(full)]) else w
    case Reset(r) =>
      if r in w.resumers && w.resumers[r].Refused?
      then w.(handle := w.handle.(resumed := false),
              resumers := w.resumers[r := Over(if w.resumers[r].full then ErrFull else ErrClosed)]) else w
    case Continue(r, err) =>
      if r in w.pending
      then w.(pending := w.pending - {r}, ran := w.ran + {r}, handle := Completing(w.handle, err)) else w
  }

  function RunAll(w: World, es: seq<Event>): World
    decreases |es|
  {
    if es == [] then w else RunAll(Step(w, es[0]), es[1..])
  }

  predicate Holding(r: Resumer) { r.Submitting? || r.Refused? || r.Admitted? }

  ghost predicate Inv(w: World) {
    && (forall r, s :: r in w.resumers && s in w.resumers && Holding(w.resumers[r]) && Holding(w.resumers[s]) ==> r == s)
    && (w.handle.resumed <==> exists r :: r in w.resumers && Holding(w.resumers[r]))
    && (forall r :: r in w.pending || r in w.ran ==> r in w.resumers && w.resumers[r].Admitted?)
    && (forall r :: r in w.resumers && w.resumers[r].Admitted? ==> (r in w.pending) != (r in w.ran))
    && w.handle.closes == (if w.handle.completed then 1 else 0)
    && (w.ran != {} ==> w.handle.completed)
    && (w.initial.Looked? && w.initial.suspended ==> w.handle.suspended)
    && (w.initial.Looked? && w.initial.completed ==> w.handle.completed)
    && (w.initial.Done? ==> w.handle.suspended || w.handle.completed)
  }

  lemma StepKeeps(w: World, e: Event)
    requires Inv(w)
    ensures Inv(Step(w, e))
  {
    var a := Step(w, e);
    match e
    case Resume(r) =>
      if r !in w.resumers && Check(w.handle).Go? { assert Holding(a.resumers[r]); }
      else if r !in w.resumers { SameHolders(w, a); }
    case Accept(r) => if a != w { assert Holding(w.resumers[r]) && Holding(a.resumers[r]); }
    case Refuse(r, _) => if a != w { assert Holding(w.resumers[r]) && Holding(a.resumers[r]); }
    case Reset(r) => if a != w { assert Holding(w.resumers[r]); }
    case _ =>
  }

  lemma SameHolders(w: World, a: World)
    requires forall r :: r in w.resumers && Holding(w.resumers[r]) ==> r in a.resumers && Holding(a.resumers[r])
    requires forall r :: r in a.resumers && Holding(a.resumers[r]) ==> r in w.resumers && Holding(w.resumers[r])
    ensures (exists r :: r in w.resumers && Holding(w.resumers[r])) <==> (exists r :: r in a.resumers && Holding(a.resumers[r]))
  {
  }

  lemma {:induction false} RunKeeps(w: World, es: seq<Event>)
    requires Inv(w)
    ensures Inv(RunAll(w, es))
    decreases |es|
  {
    hide Inv, Step;
    if es != [] {
      StepKeeps(w, es[0]);
      RunKeeps(Step(w, es[0]), es[1..]);
    }
  }

  /** Over every interleaving the mailbox admits at most one continuation, which runs at
      most once, and the done channel is closed at most once, exactly when completed. */
  lemma OneContinuation(es: seq<Event>)
    ensures var w := RunAll(START, es);
      && (forall r, s :: r in w.resumers && s in w.resumers && w.resumers[r].Admitted? && w.resumers[s].Admitted? ==> r == s)
      && w.pending !! w.ran
      && w.handle.closes == (if w.handle.completed then 1 else 0)
  {
    RunKeeps(START, es);
  }

  /** A handle whose first step is over, and which nobody suspended, is complete; so is
      one whose continuation has run. */
  lemma NobodyWaitsForever(es: seq<Event>)
    ensures var w := RunAll(START, es);
      (w.initial.Done? && !w.handle.suspended) || w.ran != {} ==> w.handle.completed
  {
    RunKeeps(START, es);
  }

  /** A caller is told "already resumed" only while another one holds the handle; once a
      refused caller has let go, the next Resume goes ahead. */
  lemma ResumableAgain(w: World, r: nat)
    requires Inv(w) && r !in w.resumers && w.handle.suspended && !w.handle.completed
    ensures Step(w, Resume(r)).resumers[r].Submitting? <==>
      forall s :: s in w.resumers ==> !Holding(w.resumers[s])
  {
  }

  /** Why a Resume is over: the handle was complete, nobody suspended it, another one
      held it, or the mailbox refused the continuation and is what the caller is told. */
  lemma VerdictsAreTrue(w: World, e: Event, r: nat)
    requires Inv(w) && r in Step(w, e).resumers && Step(w, e).resumers[r].Over?
    ensures r in w.resumers && w.resumers[r].Over? ==> Step(w, e).resumers[r] == w.resumers[r]
    ensures !(r in w.resumers && w.resumers[r].Over?) ==>
      match Step(w, e).resumers[r].verdict
      case Go => false
      case ErrClosed => (r !in w.resumers && w.handle.completed) || (r in w.resumers && w.resumers[r] == Refused(false))
      case ErrFull => r in w.resumers && w.resumers[r] == Refused(true)
      case NotSuspended => r !in w.resumers && !w.handle.suspended && !w.handle.completed
      case AlreadyResumed =>
        && r !in w.resumers && w.handle.suspended && !w.handle.completed
        && exists s :: s in w.resumers && Holding(w.resumers[s])
  {
  }

  /** A handle becomes complete by a call of Complete or by its continuation, with the
      error of either, or at the end of the first step: with its error, or without one
      when the handle had been neither suspended nor completed when it looked. */
  lemma CompletedBecause(w: World, e: Event)
    requires !w.handle.completed
    ensures Step(w, e).handle.completed <==>
      || e.Complete?
      || (e.Continue? && e.r in w.pending)
      || (e.Settle? && w.initial.Looked? && (w.initial.runErr.Some? || (!w.initial.suspended && !w.initial.completed)))
    ensures Step(w, e).handle.completed ==>
      Step(w, e).handle.err == (if e.Settle? then w.initial.runErr else e.err)
  {
  }

  /** The first completion decides the error every waiter sees. */
  lemma {:induction false} FirstErrorStays(w: World, es: seq<Event>)
    requires w.handle.completed
    ensures RunAll(w, es).handle.completed && RunAll(w, es).handle.err == w.handle.err
    ensures RunAll(w, es).handle.closes == w.handle.closes
    decreases |es|
  {
    if es != [] { FirstErrorStays(Step(w, es[0]), es[1..]); }
  }
}
