/** markRead, ClaimMail, Advance with its cancelClaim recursion, and the mark loop as
    written, in a world that other drivers keep changing between any two of their calls:
    call for call they do what their driver does, and they end. */
module MailCode {
  import opened Common
  import opened MailClaim
  import opened MailClaimTheorems

  /** What happens until the next call is answered: steps of other drivers, and what the
      environment does to the call. */
  datatype Turn = Turn(others: seq<Event>, fault: Fault, choice: Choice)

  predicate Mine(e: Event, id: nat) {
    match e
    case StartClaim(i, _, _) => i == id
    case StartAdvance(i, _) => i == id
    case StartRead(i) => i == id
    case Move(i, _, _) => i == id
  }

  function Others(es: seq<Event>, id: nat): seq<Event> {
    if es == [] then [] else if Mine(es[0], id) then Others(es[1..], id) else [es[0]] + Others(es[1..], id)
  }

  lemma OthersOnly(es: seq<Event>, id: nat)
    ensures forall i :: 0 <= i < |Others(es, id)| ==> !Mine(Others(es, id)[i], id)
  {
  }

  lemma {:induction false} OthersLeaveMe(w: World, es: seq<Event>, id: nat)
    requires id in w.drivers && forall i :: 0 <= i < |es| ==> !Mine(es[i], id)
    ensures id in RunAll(w, es).drivers && RunAll(w, es).drivers[id] == w.drivers[id]
    decreases |es|
  {
    if es != [] {
      assert Step(w, es[0]).drivers[id] == w.drivers[id];
      hide Step;
      OthersLeaveMe(Step(w, es[0]), es[1..], id);
    }
  }

  /** Store and zone as driver `id` sees them. */
  class Wire {
    const id: nat
    const script: nat -> Turn
    var world: World
    var served: nat

    constructor (world: World, id: nat, script: nat -> Turn)
      requires Inv(world) && id in world.drivers
      ensures Valid() && this.world == world && this.id == id
    {
      this.world, this.id, this.script, served := world, id, script, 0;
    }

    predicate Valid()
      reads this
    {
      Inv(world) && id in world.drivers
    }

    /** The code may only issue the call its driver is waiting on. */
    method Send(c: Call) returns (r: Reply)
      requires Valid() && c == CallOf(world.drivers[id])
      modifies this
      ensures Valid() && world.drivers[id] == Feed(old(world.drivers[id]), r)
    {
      hide Inv, Perform, Feed, CallOf;
      var turn := script(served);
      served := served + 1;
      OthersOnly(turn.others, id);
      OthersLeaveMe(world, Others(turn.others, id), id);
      RunKeeps(world, Others(turn.others, id));
      world := RunAll(world, Others(turn.others, id));
      var answered := Perform(world, c, turn.choice).1;
      r := if turn.fault.Fine? then answered else Failed;
      StepKeeps(world, Move(id, turn.fault, turn.choice));
      world := Step(world, Move(id, turn.fault, turn.choice));
    }
  }

  ghost predicate At(w: Wire, c: nat, whole: bool, run: Run)
    reads w
  {
    w.Valid() && w.world.drivers[w.id] == Driver(c, whole, run)
  }

  /** A driver is only about to withdraw outside any cancelClaim, and starts an Advance
      at most one level inside. */
  lemma Shallow(w: Wire, c: nat, whole: bool, run: Run)
    requires At(w, c, whole, run)
    ensures run.Withdrawing? ==> run.depth == 0
    ensures run.Loading? ==> run.depth <= 1
  {
    assert RunOK(w.world, c, run);
  }

  method MarkRead(w: Wire, c: nat, whole: bool) returns (o: Outcome)
    requires At(w, c, whole, ReadGet(0))
    modifies w
    ensures At(w, c, whole, Over(o))
  {
    hide Inv;
    for attempt := 0 to MAX_ATTEMPTS
      invariant At(w, c, whole, ReadAgain(attempt))
    {
      var r := w.Send(GetState);
      if r.NotFound? {
        r := w.Send(InsertState(Bits(true, false)));
        if r.AlreadyExists? { continue; }
        return if r.Done? then Read else ErrOther;
      }
      if !r.State? { return ErrOther; }
      if r.bits.read { return Read; }
      r := w.Send(UpdateState(r.bits.(read := true), r.version));
      if r.Conflict? { continue; }
      return if r.Done? then Read else ErrOther;
    }
    return ErrConflict;
  }

  /** How the mark loop ends: the mail is marked, it ran out of attempts, or it failed. */
  datatype Marked = Yes | Conflicted | Broken

  method MarkMailClaimed(w: Wire, d: Driver, k: nat, depth: nat, saga: Row<Status>) returns (m: Marked)
    requires At(w, d.claim, d.whole, Mark(d, depth, k, saga, 0))
    modifies w
    ensures At(w, d.claim, d.whole, match m
      case Yes => Completing(depth, k, saga)
      case Conflicted => Attempt(d, depth, k + 1)
      case Broken => Return(d, depth, Some(ErrOther)))
  {
    hide Inv;
    for attempt := 0 to MAX_ATTEMPTS
      invariant At(w, d.claim, d.whole, Mark(d, depth, k, saga, attempt))
    {
      var r := w.Send(GetState);
      if r.NotFound? {
        r := w.Send(InsertState(Bits(true, true)));
        if r.AlreadyExists? { continue; }
        return if r.Done? then Yes else Broken;
      }
      if !r.State? { return Broken; }
      if r.bits.claimed { return Yes; }
      r := w.Send(UpdateState(Bits(true, true), r.version));
      if r.Conflict? { continue; }
      return if r.Done? then Yes else Broken;
    }
    return Conflicted;
  }

  /** What one pass of the Advance loop decides: try again, or return this error, None
      for nil. */
  datatype Pass = Again | Cancel(saga: Row<Status>) | Back(failure: Option<Outcome>)

  method OnePass(w: Wire, d: Driver, depth: nat, k: nat) returns (p: Pass)
    requires At(w, d.claim, d.whole, Loading(depth, k))
    modifies w
    ensures At(w, d.claim, d.whole, match p
      case Again => Attempt(d, depth, k + 1)
      case Cancel(saga) => Withdrawing(depth, saga)
      case Back(failure) => Return(d, depth, failure))
  {
    hide Inv;
    var r := w.Send(GetSaga(d.claim));
    if !r.Saga? { return Back(Some(if r.NotFound? then ErrNotFound else ErrOther)); }
    var saga := Row(r.status, r.version);
    match r.status {
      case Completed => return Back(None);
      case Available => return Back(None);
      case Claiming => p := ApplyReward(w, d, depth, k, saga);
      case Init => p := ApplyReward(w, d, depth, k, saga);
      case PlayerApplied =>
        var m := MarkMailClaimed(w, d, k, depth, saga);
        if m.Conflicted? { return Again; }
        if m.Broken? { return Back(Some(ErrOther)); }
        var u := w.Send(UpdateSaga(d.claim, Completed, saga.version));
        if u.Conflict? { return Again; }
        return Back(if u.Done? then None else Some(ErrOther));
      case Cancelling =>
        var u := w.Send(UpdateSaga(d.claim, Available, saga.version));
        if u.Conflict? { return Again; }
        return Back(Some(if u.Done? then ErrInventoryFull else ErrOther));
      case Other => return Back(Some(ErrOther));
    }
  }

  method ApplyReward(w: Wire, d: Driver, depth: nat, k: nat, saga: Row<Status>) returns (p: Pass)
    requires At(w, d.claim, d.whole, Applying(depth, k, saga))
    modifies w
    ensures At(w, d.claim, d.whole, match p
      case Again => Attempt(d, depth, k + 1)
      case Cancel(row) => Withdrawing(depth, row)
      case Back(failure) => Return(d, depth, failure))
  {
    hide Inv;
    var r := w.Send(Apply(d.claim));
    if r.Full? { return Cancel(saga); }
    if !r.Paid? { return Back(Some(ErrOther)); }
    var u := w.Send(UpdateSaga(d.claim, PlayerApplied, saga.version));
    if u.Done? || u.Conflict? { return Again; }
    return Back(Some(ErrOther));
  }

  /** Advance at `depth`: at most eight passes; a full inventory hands over to
      cancelClaim, which calls Advance again. The nesting ends because the inner Advance
      finds the claim being cancelled. */
  method Advance(w: Wire, d: Driver, depth: nat) returns (failure: Option<Outcome>)
    requires At(w, d.claim, d.whole, Loading(depth, 0))
    modifies w
    ensures At(w, d.claim, d.whole, Return(d, depth, failure))
    decreases 1 - depth, 1
  {
    hide Inv;
    Shallow(w, d.claim, d.whole, Loading(depth, 0));
    for attempt := 0 to MAX_ATTEMPTS
      invariant At(w, d.claim, d.whole, Attempt(d, depth, attempt))
    {
      var p := OnePass(w, d, depth, attempt);
      match p {
        case Again =>
        case Back(f) => return f;
        case Cancel(saga) =>
          Shallow(w, d.claim, d.whole, Withdrawing(depth, saga));
          failure := CancelClaim(w, d, depth, saga);
          return;
      }
    }
    return Some(ErrConflict);
  }

  method CancelClaim(w: Wire, d: Driver, depth: nat, saga: Row<Status>) returns (failure: Option<Outcome>)
    requires At(w, d.claim, d.whole, Withdrawing(depth, saga))
    modifies w
    ensures At(w, d.claim, d.whole, Return(d, depth, failure))
    decreases 1 - depth, 0
  {
    hide Inv;
    Shallow(w, d.claim, d.whole, Withdrawing(depth, saga));
    var u := w.Send(UpdateSaga(d.claim, Cancelling, saga.version));
    if !u.Done? { return Some(if u.Conflict? then ErrConflict else ErrOther); }
    failure := Advance(w, d, depth + 1);
    if failure.None? { failure := Some(ErrInventoryFull); }
  }

  /** The registration is only looked up when the request does not carry it; whether the
      mail is visible and has a reward takes lookups of rows that never change, which
      count as one call. */
  method BeginClaim(w: Wire, c: nat, hinted: bool) returns (o: Option<Outcome>)
    requires At(w, c, true, StartOfClaim(hinted))
    modifies w
    ensures At(w, c, true, if o.None? then Loading(0, 0) else Over(o.value))
  {
    hide Inv;
    var r;
    if !hinted {
      r := w.Send(GetRegistered);
      if !r.Done? { return Some(ErrOther); }
    }
    r := w.Send(GetMail);
    if !r.Done? { return Some(if r.NotFound? then ErrNotFound else ErrOther); }
    r := w.Send(GetSaga(c));
    if r.Saga? { return if r.status.Completed? then Some(Claimed) else None; }
    if !r.NotFound? { return Some(ErrOther); }
    r := w.Send(ListSagas(c));
    if r.Blocked? { return Some(ErrConflict); }
    if !r.Free? { return Some(ErrOther); }
    r := w.Send(GetState);
    if r.State? {
      if r.bits.claimed { return Some(ErrConflict); }
    } else if !r.NotFound? {
      return Some(ErrOther);
    }
    r := w.Send(InsertSaga(c));
    if r.Done? { return None; }
    if !r.AlreadyExists? { return Some(ErrOther); }
    r := w.Send(GetSaga(c));
    if r.Saga? { return if r.status.Completed? then Some(Claimed) else None; }
    return Some(if r.NotFound? then ErrNotFound else ErrOther);
  }

  method ClaimMail(w: Wire, c: nat, hinted: bool) returns (o: Outcome)
    requires At(w, c, true, StartOfClaim(hinted))
    modifies w
    ensures At(w, c, true, Over(o))
  {
    hide Inv;
    var begun := BeginClaim(w, c, hinted);
    if begun.Some? { return begun.value; }
    var failure := Advance(w, Driver(c, true, BeginGet), 0);
    if failure.Some? { return failure.value; }
    var r := w.Send(GetSaga(c));
    if !r.Saga? { return ErrOther; }
    return if r.status.Completed? then Claimed else NotReady;
  }
}
