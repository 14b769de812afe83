/** The linker's own code: its loops, early returns and private saga copy, run against
    any replies at all. Each method issues exactly the calls of the driver automaton
    and ends where the automaton ends, so what is proved of the automaton under every
    interleaving is proved of this code. */
module FriendLinkCode {
  import opened Common
  import opened FriendLists
  import opened FriendLinkDriver

  /** The store and the collaborators as the code sees them: a call goes out and some
      reply comes back. The ghost driver runs in step with the code. */
  class Wire {
    const script: nat -> Reply
    var served: nat
    ghost var driver: Driver

    constructor (script: nat -> Reply, ghost driver: Driver)
      ensures this.script == script && served == 0 && this.driver == driver
    {
      this.script, served, this.driver := script, 0, driver;
    }

    /** The code may only issue the call its driver is waiting on. */
    method Send(c: Call) returns (r: Reply)
      requires c == CallOf(driver)
      modifies this
      ensures r == script(old(served)) && served == old(served) + 1
      ensures driver == Feed(old(driver), r)
      ensures PacedRun(old(driver).run) ==> PacedRun(driver.run)
    {
      r := script(served);
      served := served + 1;
      if PacedRun(driver.run) { FeedPaced(driver, r); }
      driver := Feed(driver, r);
    }
  }

  /** The driver kept its job, and stayed paced if it was. */
  twostate predicate Follows(w: Wire)
    reads w
  {
    && w.driver.job == old(w.driver.job)
    && (PacedRun(old(w.driver.run)) ==> PacedRun(w.driver.run))
  }

  method GetOrCreateFriendList(
    w: Wire, g: Saga, v: nat, n: nat, p: Purpose, e: Edit, name: string, k: nat)
    returns (list: FriendList, version: nat, failed: bool)
    requires !IsRelease(e) && w.driver.run == Advancing(Listing(e, name, k, Read), g, v, n, p)
    modifies w
    ensures Follows(w)
    ensures failed ==> w.driver.run == Fail(ListFailed)
    ensures !failed ==> w.driver.run == Decide(g, v, n, p, e, name, k, list, version)
  {
    hide PacedRun, Decide;
    var r := w.Send(GetList(Subject(g, e)));
    if r.ListIs? { return r.list, r.version, false; }
    if !r.NotFound? { return EMPTY_LIST, 0, true; }
    r := w.Send(InsertList(Subject(g, e)));
    if r.Done? { return EMPTY_LIST, r.version, false; }
    if !r.AlreadyExists? { return EMPTY_LIST, 0, true; }
    r := w.Send(GetList(Subject(g, e)));
    if r.ListIs? { return r.list, r.version, false; }
    return EMPTY_LIST, 0, true;
  }

  method ReserveSlot(w: Wire, g: Saga, v: nat, n: nat, p: Purpose, e: Edit)
    returns (ok: bool, failed: bool)
    requires e == ReserveLow || e == ReserveHigh
    requires w.driver.run == Advancing(Listing(e, "", 0, Read), g, v, n, p)
    modifies w
    ensures Follows(w)
    ensures w.driver.run == if failed then Fail(ListFailed) else SettleEdit(g, v, n, p, e, ok)
  {
    hide PacedRun, SettleEdit;
    for attempt := 0 to MAX_CAS_ATTEMPTS
      invariant Follows(w)
      invariant w.driver.run == if attempt < MAX_CAS_ATTEMPTS
                                then Advancing(Listing(e, "", attempt, Read), g, v, n, p) else Fail(ListFailed)
    {
      var list, version, readFailed := GetOrCreateFriendList(w, g, v, n, p, e, "", attempt);
      if readFailed { return false, true; }
      var plan := ReserveOn(list, g.link, Other(g, e));
      if plan.Settled? { return plan.ok, false; }
      var r := w.Send(UpdateList(Subject(g, e), plan.list, version));
      if r.Done? { return true, false; }
    }
    return false, true;
  }

  method ConsumeReservation(w: Wire, g: Saga, v: nat, n: nat, p: Purpose, e: Edit) returns (failure: Option<Failure>)
    requires e == ConsumeLow || e == ConsumeHigh
    requires w.driver.run == Advancing(NameRead(e), g, v, n, p)
    modifies w
    ensures Follows(w)
    ensures w.driver.run == if failure.Some? then Fail(failure.value) else SettleEdit(g, v, n, p, e, true)
  {
    hide PacedRun, SettleEdit;
    var r := w.Send(AccountName(Other(g, e)));
    if !r.NameIs? || r.name == "" { return Some(NoAccountName); }
    var name := r.name;
    for attempt := 0 to MAX_CAS_ATTEMPTS
      invariant Follows(w)
      invariant w.driver.run == if attempt < MAX_CAS_ATTEMPTS
                                then Advancing(Listing(e, name, attempt, Read), g, v, n, p) else Fail(ListFailed)
    {
      var list, version, readFailed := GetOrCreateFriendList(w, g, v, n, p, e, name, attempt);
      if readFailed { return Some(ListFailed); }
      var plan := ConsumeOn(list, g.link, Other(g, e), name, g.relation);
      if plan.Settled? { return None; }
      r := w.Send(UpdateList(Subject(g, e), plan.list, version));
      if r.Done? { return None; }
    }
    return Some(ListFailed);
  }

  /** The caller drops this method's error, so it has no result. */
  method ReleaseReservation(w: Wire, g: Saga, v: nat, n: nat, p: Purpose, e: Edit)
    requires IsRelease(e)
    requires w.driver.run == Advancing(Listing(e, "", 0, Read), g, v, n, p)
    modifies w
    ensures Follows(w)
    ensures w.driver.run == SettleEdit(g, v, n, p, e, true)
  {
    hide PacedRun, SettleEdit, Freed, Reserves, Without;
    for attempt := 0 to MAX_CAS_ATTEMPTS
      invariant Follows(w)
      invariant w.driver.run == if attempt < MAX_CAS_ATTEMPTS
                                then Advancing(Listing(e, "", attempt, Read), g, v, n, p)
                                else SettleEdit(g, v, n, p, e, true)
    {
      var r := w.Send(GetList(Subject(g, e)));
      if !r.ListIs? { return; }
      var plan := ReleaseOn(r.list, g.link);
      if plan.Settled? { return; }
      r := w.Send(UpdateList(Subject(g, e), plan.list, r.version));
      if r.Done? { return; }
    }
  }

  method CreateRelation(w: Wire, g: Saga, v: nat, n: nat, p: Purpose) returns (saga: Saga, failed: bool)
    requires w.driver.run == Advancing(RelationCreate, g, v, n, p)
    modifies w
    ensures Follows(w)
    ensures w.driver.run == if failed then Fail(RelationFailed)
                            else WriteSaga(g, v, n, p, saga.(status := RelationActive), NextStep)
  {
    hide PacedRun;
    saga := g;
    var r := w.Send(InsertRelation(g.low, g.high, g.relation));
    if r.Done? { return saga, false; }
    if !r.AlreadyExists? { return saga, true; }
    r := w.Send(GetRelation(g.low, g.high));
    if !r.RelationIs? { return saga, true; }
    saga := saga.(relation := r.relation);
    return saga, false;
  }

  /** The side loop's body: skip an applied side, else credit it and persist. */
  method CreditSide(w: Wire, j: Job, g: Saga, v: nat, n: nat, p: Purpose, low: bool)
    returns (saga: Saga, version: nat, failed: bool)
    requires w.driver == Driver(j, CreditFrom(j, g, v, n, p, low))
    modifies w
    ensures Follows(w)
    ensures w.driver == Driver(j, if failed then Return(saga, p)
                                  else if low then CreditFrom(j, saga, version, n, p, false)
                                  else AfterCredits(j, saga, version, n, p))
  {
    hide PacedRun, Return, AfterCredits, FeedList;
    saga, version := g, v;
    if (if low then saga.lowCredited else saga.highCredited) { return saga, version, false; }
    var r := w.Send(CreditTask(if low then saga.low else saga.high, saga.relation));
    if !r.Done? {
      saga := saga.(lastError := TaskCreditFailed);
      r := w.Send(UpdateSaga(saga, version));
      return saga, version, true;
    }
    saga := if low then saga.(lowCredited := true) else saga.(highCredited := true);
    saga := saga.(lastError := NoError);
    r := w.Send(UpdateSaga(saga, version));
    if !r.Done? { return saga, version, true; }
    return saga, r.version, false;
  }

  method CreditBothSides(w: Wire, j: Job, g: Saga, v: nat, n: nat, p: Purpose)
    returns (saga: Saga, version: nat, failed: bool)
    requires w.driver == Driver(j, CreditFrom(j, g, v, n, p, true))
    modifies w
    ensures Follows(w)
    ensures w.driver == Driver(j, if failed then Return(saga, p) else AfterCredits(j, saga, version, n, p))
  {
    hide PacedRun, Return, AfterCredits, CreditFrom;
    saga, version := g, v;
    for side := 0 to 2
      invariant Follows(w)
      invariant w.driver == Driver(j, if side < 2 then CreditFrom(j, saga, version, n, p, side == 0)
                                      else AfterCredits(j, saga, version, n, p))
    {
      saga, version, failed := CreditSide(w, j, saga, version, n, p, side == 0);
      if failed { return; }
    }
    return saga, version, false;
  }

  /** The run that closes REWARD_MAILS_CREATED. */
  function MailsDone(g: Saga, v: nat, n: nat, p: Purpose): Run {
    WriteSaga(g, v, n, p, g.(status := Completed), NextStep)
  }

  method MailOneSide(w: Wire, j: Job, g: Saga, v: nat, n: nat, p: Purpose, side: MailSide)
    returns (saga: Saga, version: nat, failed: bool)
    requires w.driver == Driver(j, MailFrom(g, v, n, p, side))
    modifies w
    ensures Follows(w)
    ensures w.driver == Driver(j, if failed then Return(saga, p)
                                  else if side == ToInviter then MailFrom(saga, version, n, p, ToInvitee)
                                  else MailsDone(saga, version, n, p))
  {
    hide PacedRun, Return, FeedList;
    saga, version := g, v;
    if Settles(if side == ToInviter then saga.inviterMail else saga.inviteeMail) { return saga, version, false; }
    var r := w.Send(SendMail(SourceId(saga.link.redeemer, side), Recipient(saga, side)));
    if !r.Done? {
      saga := saga.(lastError := RewardMailFailed);
      r := w.Send(UpdateSaga(saga, version));
      return saga, version, true;
    }
    saga := if side == ToInviter then saga.(inviterMail := MailApplied) else saga.(inviteeMail := MailApplied);
    saga := saga.(lastError := NoError);
    r := w.Send(UpdateSaga(saga, version));
    if !r.Done? { return saga, version, true; }
    return saga, r.version, false;
  }

  method CreateRewardMails(w: Wire, j: Job, g: Saga, v: nat, n: nat, p: Purpose)
    returns (saga: Saga, version: nat, failed: bool)
    requires w.driver == Driver(j, if !j.mailer then Return(g, p) else MailFrom(g, v, n, p, ToInviter))
    modifies w
    ensures Follows(w)
    ensures w.driver == Driver(j, if failed then Return(saga, p) else MailsDone(saga, version, n, p))
  {
    hide PacedRun, Return, MailFrom, MailsDone;
    saga, version := g, v;
    if !j.mailer { return saga, version, true; }
    for side := 0 to 2
      invariant Follows(w)
      invariant w.driver == Driver(j, if side < 2
                                      then MailFrom(saga, version, n, p, if side == 0 then ToInviter else ToInvitee)
                                      else MailsDone(saga, version, n, p))
    {
      saga, version, failed := MailOneSide(w, j, saga, version, n, p, if side == 0 then ToInviter else ToInvitee);
      if failed { return; }
    }
    return saga, version, false;
  }

  /** The saga the automaton is about to persist at the end of a status's own work. */
  ghost predicate Pending(w: Wire, j: Job, g: Saga, v: nat, n: nat, p: Purpose, next: Saga)
    reads w
  {
    w.driver.job == j && w.driver.run == WriteSaga(g, v, n, p, next, NextStep)
  }

  /** The claim of the first-friend row, and what the switch makes of it: both mails to
      send, or none; a failed claim is noted and ends the call. */
  method CheckFirstFriendReward(w: Wire, j: Job, g: Saga, v: nat, n: nat, p: Purpose)
    returns (saga: Saga, done: bool, failure: Option<Failure>)
    requires g.status == FirstRewardChecked
    requires n < MAX_SAGA_STEPS && w.driver == Driver(j, Enter(j, g, v, n, p))
    modifies w
    ensures Follows(w)
    ensures done ==> w.driver == Driver(j, if failure.Some? then Fail(failure.value) else Return(saga, p))
    ensures !done ==> Pending(w, j, g, v, n, p, saga)
  {
    hide PacedRun, Return;
    saga, done, failure := g, false, None;
    if !saga.claimed && !(saga.inviterMail == MailSkipped && saga.inviteeMail == MailSkipped) {
      var r := w.Send(ClaimReward(g.link.redeemer, g.owner, g.relation, g.link.code));
      if !r.ClaimIs? {
        saga := saga.(lastError := FirstRewardCheckFailed);
        r := w.Send(UpdateSaga(saga, v));
        if !r.Done? { return saga, true, Some(SagaFailed); }
        return saga, true, None;
      }
      saga := saga.(claimed := r.claimed, lastError := NoError);
    }
    if saga.claimed {
      saga := saga.(inviterMail := MailPending, inviteeMail := MailPending, status := RewardMailsCreated);
    } else {
      saga := saga.(inviterMail := MailSkipped, inviteeMail := MailSkipped, status := Completed);
    }
  }

  /** One pass of the switch. `done` means advance returns now with `failure`. */
  method SwitchOn(w: Wire, j: Job, g: Saga, v: nat, n: nat, p: Purpose)
    returns (saga: Saga, version: nat, done: bool, failure: Option<Failure>, ghost base: Saga)
    requires n < MAX_SAGA_STEPS && w.driver == Driver(j, Enter(j, g, v, n, p))
    modifies w
    ensures Follows(w)
    ensures done ==> w.driver == Driver(j, if failure.Some? then Fail(failure.value) else Return(saga, p))
    ensures !done ==> Pending(w, j, base, version, n, p, saga)
  {
    hide PacedRun, Return;
    saga, version, done, failure, base := g, v, false, None, g;
    match g.status {
      case Init =>
        var ok, failed := ReserveSlot(w, g, v, n, p, ReserveLow);
        if failed { return saga, version, true, Some(ListFailed), base; }
        saga := saga.(status := if !ok then Releasing else LowReserved);
      case LowReserved =>
        var ok, failed := ReserveSlot(w, g, v, n, p, ReserveHigh);
        if failed { return saga, version, true, Some(ListFailed), base; }
        saga := saga.(status := if !ok then Releasing else BothReserved);
      case BothReserved =>
        var failed;
        saga, failed := CreateRelation(w, g, v, n, p);
        if failed { return saga, version, true, Some(RelationFailed), base; }
        saga := saga.(status := RelationActive);
      case RelationActive =>
        failure := ConsumeReservation(w, g, v, n, p, ConsumeLow);
        if failure.Some? { return saga, version, true, failure, base; }
        failure := ConsumeReservation(w, g, v, n, p, ConsumeHigh);
        if failure.Some? { return saga, version, true, failure, base; }
        saga := saga.(status := ProjectionsApplied);
      case ProjectionsApplied =>
        saga := saga.(status := TaskCrediting);
      case TaskCrediting =>
        var creditFailed;
        saga, version, creditFailed := CreditBothSides(w, j, g, v, n, p);
        base := saga;
        if creditFailed { return saga, version, true, None, base; }
        saga := saga.(status := if !j.mailer then Completed else FirstRewardChecked);
      case FirstRewardChecked =>
        saga, done, failure := CheckFirstFriendReward(w, j, g, v, n, p);
      case RewardMailsCreated =>
        var mailFailed;
        saga, version, mailFailed := CreateRewardMails(w, j, g, v, n, p);
        base := saga;
        if mailFailed { return saga, version, true, None, base; }
        saga := saga.(status := Completed);
      case Releasing =>
        ReleaseReservation(w, g, v, n, p, ReleaseLow);
        ReleaseReservation(w, g, v, n, p, ReleaseHigh);
        saga := saga.(status := Aborted);
      case Completed => done := true;
      case Aborted => done := true;
      case Unspecified => done, failure := true, Some(UnknownStatus);
    }
  }

  /** advance: the bounded loop that persists after every transition. */
  method Advance(w: Wire, j: Job, g: Saga, v: nat, p: Purpose) returns (saga: Saga, failure: Option<Failure>)
    requires w.driver == Driver(j, Enter(j, g, v, 0, p))
    modifies w
    ensures Follows(w)
    ensures w.driver == Driver(j, if failure.Some? then Fail(failure.value) else Return(saga, p))
  {
    hide PacedRun, Return, Enter;
    saga := g;
    var version := v;
    for step := 0 to MAX_SAGA_STEPS
      invariant Follows(w)
      invariant w.driver == Driver(j, Enter(j, saga, version, step, p))
    {
      var done;
      ghost var base;
      saga, version, done, failure, base := SwitchOn(w, j, saga, version, step, p);
      if done { return saga, failure; }
      var r := w.Send(UpdateSaga(saga, version));
      if !r.Done? { return saga, Some(SagaFailed); }
      version := r.version;
    }
    EnterPastBound(j, saga, version, p);
    return saga, Some(NotConverged);
  }

  lemma EnterPastBound(j: Job, g: Saga, v: nat, p: Purpose)
    ensures Enter(j, g, v, MAX_SAGA_STEPS, p) == Fail(NotConverged)
  {}

  /** EstablishFriendship answers what its automaton answers, whatever is replied, and
      never with the "did not converge" error. */
  method EstablishFriendship(w: Wire, j: Job) returns (outcome: Outcome)
    requires w.driver == Start(j)
    modifies w
    ensures w.driver == Driver(j, Finished(outcome))
    ensures outcome != Error(NotConverged)
  {
    hide Enter;
    outcome := EstablishUnbounded(w, j);
  }

  method EstablishUnbounded(w: Wire, j: Job) returns (outcome: Outcome)
    requires w.driver == Start(j)
    modifies w
    ensures Follows(w)
    ensures w.driver == Driver(j, Finished(outcome))
  {
    hide PacedRun, Enter;
    if j.owner == 0 || j.redeemer == 0 { return Error(PlayerIdsRequired); }
    if j.owner == j.redeemer { return Error(CannotFriendSelf); }
    var low, high := LowOf(j.owner, j.redeemer), HighOf(j.owner, j.redeemer);
    var link := JobLink(j);

    var r := w.Send(GetRelation(low, high));
    if r.RelationIs? {
      var relation := r.relation;
      r := w.Send(GetSaga(link));
      if r.SagaIs? {
        if r.saga.status != Completed {
          var final, failure := Advance(w, j, r.saga, r.version, AlreadyFriends);
          if failure.Some? { return Error(failure.value); }
          return Linked(final.relation, false);
        }
      } else if !r.NotFound? {
        return Error(SagaFailed);
      }
      return Linked(relation, false);
    } else if !r.NotFound? {
      return Error(RelationFailed);
    }

    var saga, version;
    r := w.Send(GetSaga(link));
    if r.SagaIs? {
      saga, version := r.saga, r.version;
    } else if r.NotFound? {
      r := w.Send(MintRelation(link));
      if !r.Minted? { return Error(RelationFailed); }
      saga := NewSaga(j, r.relation);
      r := w.Send(InsertSaga(saga));
      if r.Done? {
        version := r.version;
      } else {
        if !r.AlreadyExists? { return Error(SagaFailed); }
        r := w.Send(GetSaga(link));
        if !r.SagaIs? { return Error(SagaFailed); }
        saga, version := r.saga, r.version;
      }
    } else {
      return Error(SagaFailed);
    }
    var newlyCreated := saga.status != Completed;
    var final, failure := Advance(w, j, saga, version, Establish(newlyCreated));
    if failure.Some? { return Error(failure.value); }
    if final.status == Aborted { return LimitReached; }
    return Linked(final.relation, newlyCreated);
  }
}
