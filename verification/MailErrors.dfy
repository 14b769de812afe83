/** When a claim or a read is answered with an error other than a full inventory: only if
    something happened to one of its calls, or there was nothing to claim. */
module MailErrors {
  import opened Common
  import opened MailClaim
  import opened MailClaimTheorems

  predicate Failure(o: Outcome) { o.ErrOther? || o.ErrConflict? || o.ErrNotFound? }

  /** The driver is in the last of its eight attempts. */
  predicate LastTry(run: Run) {
    match run
    case Recording(_, k, _) => k + 1 >= 8
    case MarkInsert(_, k, _, j) => k + 1 >= 8 || j + 1 >= 8
    case MarkUpdate(_, k, _, j, _) => k + 1 >= 8 || j + 1 >= 8
    case Completing(_, k, _) => k + 1 >= 8
    case Finishing(_, k, _) => k + 1 >= 8
    case ReadInsert(j) => j + 1 >= 8
    case ReadUpdate(j, _) => j + 1 >= 8
    case _ => false
  }

  /** Something happens to a call of driver `id` that an error may report: it fails, a
      lookup finds nothing, the mail is claimed or being claimed, the zone declines, the
      claim is not there or in no known state, withdrawing it loses the compare-and-swap,
      or the attempts are used up. */
  predicate Trouble(w: World, e: Event, id: nat) {
    && e.Move? && e.id == id && id in w.drivers
    && var (d, r) := (w.drivers[id], Perform(w, CallOf(w.drivers[id]), e.choice).1);
       || !e.fault.Fine?
       || ((d.run.BeginRegistered? || d.run.BeginMail?) && !e.choice.Pay?)
       || r.Blocked? || r.Declined?
       || (d.run.BeginState? && IsClaimed(w))
       || (d.run.Loading? && (d.claim !in w.sagas || w.sagas[d.claim].value.Other?))
       || (d.run.Withdrawing? && r.Conflict?)
       || LastTry(d.run)
  }

  ghost predicate EverTrouble(w: World, es: seq<Event>, id: nat)
    decreases |es|
  {
    es != [] && (Trouble(w, es[0], id) || EverTrouble(Step(w, es[0]), es[1..], id))
  }

  /** What only a ClaimMail, only a bare Advance and only a read are told. */
  predicate Fitting(d: Driver) {
    match d.run
    case Over(o) => (o.Claimed? || o.NotReady? ==> d.whole) && (o.Advanced? ==> !d.whole)
    case FinalGet => d.whole
    case _ => OfBegin(d.run) ==> d.whole
  }

  predicate Calm(w: World, d: Driver) {
    && (d.run.Over? ==> !Failure(d.run.outcome))
    && (d.run.BeginReget? ==> d.claim in w.sagas)
    && Attempting(d.run) && Fitting(d)
  }

  /** Attempts are counted below eight. */
  predicate Attempting(run: Run) {
    match run
    case Loading(_, k) => k < MAX_ATTEMPTS
    case Applying(_, k, _) => k < MAX_ATTEMPTS
    case Recording(_, k, _) => k < MAX_ATTEMPTS
    case MarkGet(_, k, _, j) => k < MAX_ATTEMPTS && j < MAX_ATTEMPTS
    case MarkInsert(_, k, _, j) => k < MAX_ATTEMPTS && j < MAX_ATTEMPTS
    case MarkUpdate(_, k, _, j, _) => k < MAX_ATTEMPTS && j < MAX_ATTEMPTS
    case Completing(_, k, _) => k < MAX_ATTEMPTS
    case Finishing(_, k, _) => k < MAX_ATTEMPTS
    case ReadGet(j) => j < MAX_ATTEMPTS
    case ReadInsert(j) => j < MAX_ATTEMPTS
    case ReadUpdate(j, _) => j < MAX_ATTEMPTS
    case _ => true
  }

  lemma BeginCalm(w: World, d: Driver, choice: Choice, e: Event, id: nat)
    requires Inv(w) && id in w.drivers && w.drivers[id] == d && OfBegin(d.run) && Calm(w, d)
    requires e == Move(id, Fine, choice) && !Trouble(w, e, id)
    ensures var (t, r) := Perform(w, CallOf(d), choice); Calm(t, Feed(d, r))
  {
    hide SagasOK, ZoneOK, Blocking;
    assert RunOK(w, d.claim, d.run);
  }

  lemma ReadCalm(w: World, d: Driver, choice: Choice, e: Event, id: nat)
    requires Inv(w) && id in w.drivers && w.drivers[id] == d && OfRead(d.run) && Calm(w, d)
    requires e == Move(id, Fine, choice) && !Trouble(w, e, id)
    ensures var (t, r) := Perform(w, CallOf(d), choice); Calm(t, Feed(d, r))
  {
    hide SagasOK, ZoneOK, Blocking;
    assert RunOK(w, d.claim, d.run);
  }

  lemma AdvanceCalm(w: World, d: Driver, choice: Choice, e: Event, id: nat)
    requires Inv(w) && id in w.drivers && w.drivers[id] == d && !OfRead(d.run) && !OfBegin(d.run) && Calm(w, d)
    requires e == Move(id, Fine, choice) && !Trouble(w, e, id)
    ensures var (t, r) := Perform(w, CallOf(d), choice); Calm(t, Feed(d, r))
  {
    hide SagasOK, ZoneOK, Blocking;
    assert RunOK(w, d.claim, d.run);
  }

  lemma MoveCalm(w: World, e: Event, id: nat)
    requires Inv(w) && e.Move? && e.id == id && id in w.drivers && Calm(w, w.drivers[id]) && !Trouble(w, e, id)
    ensures Calm(Step(w, e), Step(w, e).drivers[id])
  {
    hide Calm, Perform, CallOf, Feed, Inv;
    var d := w.drivers[id];
    assert e.fault.Fine? by { NoFault(w, e, id); }
    if OfBegin(d.run) { BeginCalm(w, d, e.choice, e, id); }
    else if OfRead(d.run) { ReadCalm(w, d, e.choice, e, id); }
    else { AdvanceCalm(w, d, e.choice, e, id); }
    var (t, r) := Perform(w, CallOf(d), e.choice);
    SameCalm(t, Step(w, e), Feed(d, r));
  }

  lemma NoFault(w: World, e: Event, id: nat)
    requires e.Move? && e.id == id && id in w.drivers && !Trouble(w, e, id)
    ensures e.fault.Fine?
  {}

  lemma SameCalm(t: World, u: World, d: Driver)
    requires u == t.(drivers := u.drivers) && Calm(t, d)
    ensures Calm(u, d)
  {}

  lemma CalmLater(w: World, t: World, d: Driver)
    requires Calm(w, d) && Later(w, t)
    ensures Calm(t, d)
  {}

  lemma StepCalm(w: World, e: Event, id: nat)
    requires Inv(w) && !Trouble(w, e, id) && (id in w.drivers ==> Calm(w, w.drivers[id]))
    ensures id in Step(w, e).drivers ==> Calm(Step(w, e), Step(w, e).drivers[id])
  {
    hide Inv, Trouble, Later, Perform, CallOf, Feed;
    StepKeeps(w, e);
    if e.Move? && e.id == id && id in w.drivers { MoveCalm(w, e, id); }
    else if id in w.drivers { OthersStay(w, e, id); CalmLater(w, Step(w, e), w.drivers[id]); }
    else if id in Step(w, e).drivers { StartsCalm(w, e, id); }
  }

  lemma StartsCalm(w: World, e: Event, id: nat)
    requires id !in w.drivers && id in Step(w, e).drivers
    ensures Calm(Step(w, e), Step(w, e).drivers[id])
  {
    hide Feed, CallOf;
  }

  lemma OthersStay(w: World, e: Event, id: nat)
    requires id in w.drivers && !(e.Move? && e.id == id)
    ensures id in Step(w, e).drivers && Step(w, e).drivers[id] == w.drivers[id]
  {
    hide Feed;
  }

  lemma {:induction false} RunCalm(w: World, es: seq<Event>, id: nat)
    requires Inv(w) && !EverTrouble(w, es, id) && (id in w.drivers ==> Calm(w, w.drivers[id]))
    ensures id in RunAll(w, es).drivers ==> Calm(RunAll(w, es), RunAll(w, es).drivers[id])
    decreases |es|
  {
    hide Inv, Step, Calm, Trouble;
    if es != [] {
      StepKeeps(w, es[0]);
      StepCalm(w, es[0], id);
      RunCalm(Step(w, es[0]), es[1..], id);
    }
  }

  /** Over every run: a claim or a read is answered with an error, other than for a full
      inventory, only if something happened to one of its calls. Races with other drivers
      lead to none until the attempts are used up. */
  lemma ErrorsHaveACause(es: seq<Event>, id: nat)
    requires var w := RunAll(FRESH, es); id in w.drivers && w.drivers[id].run.Over? && Failure(w.drivers[id].run.outcome)
    ensures EverTrouble(FRESH, es, id)
  {
    hide RunAll, EverTrouble;
    if !EverTrouble(FRESH, es, id) { RunCalm(FRESH, es, id); }
  }

  /** Whatever happens, only ClaimMail is told that a mail is claimed or not ready, and
      only a bare Advance that it has advanced. */
  lemma StepFits(w: World, e: Event)
    requires forall i :: i in w.drivers ==> Fitting(w.drivers[i])
    ensures forall i :: i in Step(w, e).drivers ==> Fitting(Step(w, e).drivers[i])
  {
    hide CallOf, Feed, Fitting;
    if e.Move? && e.id in w.drivers {
      var d := w.drivers[e.id];
      FeedFits(d, Failed);
      FeedFits(d, Perform(w, CallOf(d), e.choice).1);
    } else {
      StartsFit(w, e);
    }
  }

  lemma FeedFits(d: Driver, r: Reply)
    requires Fitting(d)
    ensures Fitting(Feed(d, r))
  {
    if OfBegin(d.run) { hide FeedAdvance, FeedRead; } else if OfRead(d.run) { hide FeedAdvance, FeedBegin; } else { AdvanceFits(d, r); }
  }

  lemma AdvanceFits(d: Driver, r: Reply)
    requires Fitting(d) && !OfBegin(d.run) && !OfRead(d.run)
    ensures Fitting(d.(run := FeedAdvance(d, r)))
  {
    hide FeedAdvance;
    match d.run
    case Loading(depth, k) => LoadFits(d, depth, k, r);
    case MarkGet(_, _, _, _) => MarkFits(d, r);
    case MarkInsert(_, _, _, _) => MarkFits(d, r);
    case MarkUpdate(_, _, _, _, _) => MarkFits(d, r);
    case _ => SagaFits(d, r);
  }

  lemma MarkFits(d: Driver, r: Reply)
    requires d.run.MarkGet? || d.run.MarkInsert? || d.run.MarkUpdate?
    ensures Fitting(d.(run := FeedAdvance(d, r)))
  {}

  lemma SagaFits(d: Driver, r: Reply)
    requires Fitting(d) && !OfBegin(d.run) && !OfRead(d.run) && !d.run.Loading?
    requires !d.run.MarkGet? && !d.run.MarkInsert? && !d.run.MarkUpdate?
    ensures Fitting(d.(run := FeedAdvance(d, r)))
  {}

  lemma LoadFits(d: Driver, depth: nat, k: nat, r: Reply)
    requires d.run == Loading(depth, k)
    ensures Fitting(d.(run := FeedAdvance(d, r)))
  {}

  lemma StartsFit(w: World, e: Event)
    requires !(e.Move? && e.id in w.drivers) && forall i :: i in w.drivers ==> Fitting(w.drivers[i])
    ensures forall i :: i in Step(w, e).drivers ==> Fitting(Step(w, e).drivers[i])
  {}

  lemma {:induction false} AnswersFit(w: World, es: seq<Event>)
    requires forall i :: i in w.drivers ==> Fitting(w.drivers[i])
    ensures forall i :: i in RunAll(w, es).drivers ==> Fitting(RunAll(w, es).drivers[i])
    decreases |es|
  {
    hide Step, Fitting;
    if es != [] {
      StepFits(w, es[0]);
      AnswersFit(Step(w, es[0]), es[1..]);
    }
  }
}
