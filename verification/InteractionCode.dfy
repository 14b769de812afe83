/** StealSaga and ActionSaga as written: createOrLoad, the bounded loop and deferRetry
    run against any replies, call for call in step with the driver automaton. The two
    sagas differ only in which visitor step each call names. */
module InteractionCode {
  import opened Common
  import opened RequestDigest
  import opened InteractionSaga

  /** Store, visitor and owner as the code sees them. */
  class Wire {
    const script: nat -> Reply
    var served: nat
    ghost var driver: Driver

    constructor (script: nat -> Reply, ghost driver: Driver)
      ensures this.script == script && served == 0 && this.driver == driver
    {
      this.script, served, this.driver := script, 0, driver;
    }

    /** The code may only issue the call its driver is waiting on. */
    method Send(c: Call) returns (r: Reply)
      requires c == CallOf(driver)
      modifies this
      ensures r == script(old(served)) && served == old(served) + 1
      ensures driver == Feed(old(driver), r)
    {
      r := script(served);
      served := served + 1;
      driver := Feed(driver, r);
    }
  }

  /** The driver of `w` with this run. */
  ghost predicate At(w: Wire, q: Request, checked: bool, run: Run)
    reads w
  {
    w.driver == Driver(q, checked, run)
  }

  method DeferRetry(w: Wire, q: Request, checked: bool, g: Record, v: nat, n: nat) returns (outcome: Outcome)
    requires At(w, q, checked, Defer(g, v, n))
    modifies w
    ensures At(w, q, checked, Finished(outcome))
  {
    var record := g.(code := TransportError);
    var r := w.Send(Update(record, v));
    if !r.Done? { return Error(StoreFailed); }
    return OutcomeUnknown;
  }

  /** One pass of the switch: either the call is over with `outcome`, or `record` is to
      be persisted. */
  method SwitchOn(w: Wire, q: Request, checked: bool, g: Record, v: nat, n: nat)
    returns (record: Record, done: bool, outcome: Outcome)
    requires n < MAX_SAGA_STEPS && At(w, q, checked, Enter(g, v, n))
    modifies w
    ensures done ==> At(w, q, checked, Finished(outcome))
    ensures !done ==> At(w, q, checked, Persist(g, v, n, record))
  {
    record, done, outcome := g, false, OutcomeUnknown;
    match g.status {
      case Init =>
        var r := w.Send(Reserve(q));
        if r.Rejected? {
          record := record.(status := Releasing, code := Domain(r.code));
        } else if !r.Done? {
          outcome := DeferRetry(w, q, checked, g, v, n);
          done := true;
        } else {
          record := record.(status := VisitorReserved);
        }
      case VisitorReserved =>
        var r := w.Send(AskOwner(q));
        if r.Rejected? {
          record := record.(status := Releasing, code := Domain(r.code));
        } else if !r.Applied? {
          outcome := DeferRetry(w, q, checked, g, v, n);
          done := true;
        } else {
          record := record.(payload := Intermediate(r.patch), status := OwnerApplied);
        }
      case OwnerApplied =>
        var r := w.Send(Commit(q, g.payload));
        if !r.Response? {
          outcome := DeferRetry(w, q, checked, g, v, n);
          done := true;
        } else {
          record := record.(payload := Final(r.receipt), status := VisitorCommitted);
        }
      case VisitorCommitted =>
        record := record.(status := Completed);
      case Completed =>
        done := true;
        outcome := if g.payload.Final? then Success(g.payload.receipt) else Error(UndecodableResult);
      case Releasing =>
        var r := w.Send(Release(q));
        record := record.(status := Aborted);
      case Aborted =>
        done, outcome := true, AbortedWith(g.code);
      case Unspecified =>
        done, outcome := true, Error(UnknownStatus);
    }
  }

  /** advance: at most 32 passes, persisting after each. */
  method Advance(w: Wire, q: Request, checked: bool, g: Record, v: nat) returns (outcome: Outcome)
    requires At(w, q, checked, Enter(g, v, 0))
    modifies w
    ensures At(w, q, checked, Finished(outcome))
  {
    hide Enter;
    var record, version := g, v;
    for step := 0 to MAX_SAGA_STEPS
      invariant At(w, q, checked, Enter(record, version, step))
    {
      ghost var base := record;
      var done;
      record, done, outcome := SwitchOn(w, q, checked, record, version, step);
      if done { return; }
      var r := w.Send(Update(record, version));
      if !r.Done? { return Error(StoreFailed); }
      version := r.version;
    }
    EnterPastBound(record, version);
    return Error(NotConverged);
  }

  lemma EnterPastBound(g: Record, v: nat)
    ensures Enter(g, v, MAX_SAGA_STEPS) == Finished(Error(NotConverged))
  {}

  /** Execute answers what its automaton answers. */
  method ExecuteRequest(w: Wire, q: Request) returns (outcome: Outcome)
    requires w.driver == StartExecute(q)
    modifies w
    ensures At(w, q, true, Finished(outcome))
  {
    hide Enter, Preimage;
    if !Valid(q) { return Error(InvalidRequest); }
    var r := w.Send(Get);
    if r.NotFound? {
      var record := NewRecord(q);
      r := w.Send(Insert(record));
      if r.Done? {
        outcome := Advance(w, q, true, record, r.version);
        return;
      }
      if !r.AlreadyExists? { return Error(StoreFailed); }
      r := w.Send(Get);
    }
    if !r.Found? { return Error(StoreFailed); }
    if Preimage(r.record.request) != Preimage(q) { return Error(DigestConflict); }
    outcome := Advance(w, q, true, r.record, r.version);
  }

  /** Resume loads without comparing digests. */
  method ResumeRequest(w: Wire, q: Request) returns (outcome: Outcome)
    requires w.driver == StartResume(q)
    modifies w
    ensures At(w, q, false, Finished(outcome))
  {
    hide Enter;
    if !Valid(q) { return Error(InvalidRequest); }
    var r := w.Send(Get);
    if !r.Found? { return Error(StoreFailed); }
    outcome := Advance(w, q, false, r.record, r.version);
  }
}
