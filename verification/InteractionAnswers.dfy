/** What a caller is told: which errors are possible and what they mean, whose request is
    carried out, and what a call that nobody disturbs does from any reachable state. */
module InteractionAnswers {
  import opened Common
  import opened Bytes
  import opened RequestDigest
  import opened InteractionSaga
  import opened InteractionTheorems

  // ------------------------------------------------------------- errors

  /** What the errors of a driver mean; the last three cannot happen. */
  predicate ErrorOK(w: World, d: Driver) {
    && (d.run == Finished(Error(InvalidRequest)) <==> !Valid(d.request))
    && (d.run == Finished(Error(DigestConflict)) ==>
          d.checked && w.record.Some? && Preimage(w.record.value.value.request) != Preimage(d.request))
    && d.run != Finished(Error(UnknownStatus)) && d.run != Finished(Error(UndecodableResult))
    && d.run != Finished(Error(NotConverged)) && Paced(d.run)
    && (d.run.EntryGet? || d.run.EntryInsert? || d.run.EntryReget? ==> d.checked)
  }

  predicate ErrorsOK(w: World) { forall id :: id in w.drivers ==> ErrorOK(w, w.drivers[id]) }

  lemma ErrorLater(w: World, t: World, d: Driver)
    requires Later(w, t) && ErrorOK(w, d)
    ensures ErrorOK(t, d)
  {
    hide Valid, Preimage;
  }

  lemma FeedError(t: World, d: Driver, r: Reply)
    requires ErrorOK(t, d) && Core(t) && Truth(t, CallOf(d), r) && DriverOK(t, d)
    ensures ErrorOK(t, Feed(d, r))
  {
    hide Valid, Preimage;
    FeedPaced(d, r);
    if d.run.EntryInsert? && r.Done? { EnterFine(t, NewRecord(d.request), r.version, 0); }
    if (d.run.EntryGet? || d.run.EntryReget? || d.run.EntryResume?) && r.Found? { EnterFine(t, r.record, r.version, 0); }
    if d.run.Advancing? && d.run.at.Writing? && r.Done? { EnterFine(t, d.run.at.next, r.version, d.run.steps + 1); }
    hide Enter, Facts, Owned, AtOK;
  }

  lemma EnterFine(t: World, g: Record, v: nat, n: nat)
    requires Core(t) && t.record == Some(Row(g, v))
    ensures var run := Enter(g, v, n);
      && run != Finished(Error(UnknownStatus)) && run != Finished(Error(UndecodableResult))
      && run != Finished(Error(InvalidRequest)) && run != Finished(Error(DigestConflict))
  {}

  lemma ActErrors(w: World, e: Event)
    requires Inv(w) && ErrorsOK(w) && e.Act? && e.id in w.drivers
    ensures ErrorsOK(Step(w, e))
  {
    hide ErrorOK, DriverOK, Feed, CallOf, Perform, Truth, Good, Facts;
    var d := w.drivers[e.id];
    var (t, r) := Perform(w, CallOf(d), e.fault, e.pick);
    PerformsWell(w, d, e.fault, e.pick);
    StepKeeps(w, e);
    forall i | i in w.drivers ensures ErrorOK(Step(w, e), Step(w, e).drivers[i]) {
      if i != e.id {
        ErrorLater(w, Step(w, e), w.drivers[i]);
      } else {
        ErrorLater(w, t, d);
        FeedError(t, d, r);
        SameError(t, Step(w, e), Feed(d, r));
      }
    }
  }

  /** After the call, and before the driver learns of it, all is in order. */
  lemma PerformsWell(w: World, d: Driver, fault: Fault, pick: Pick)
    requires Inv(w) && DriverOK(w, d)
    ensures var (t, r) := Perform(w, CallOf(d), fault, pick);
      Later(w, t) && Core(t) && DriverOK(t, d) && Truth(t, CallOf(d), r) && t.drivers == w.drivers
  {
    hide DriverOK, Truth, CallOf, Facts, Apply, Valid, HoldOK;
    CallIsGood(w, d, pick);
    NoChangeIsGood(w);
    ReplyIsTrue(w, CallOf(d), fault, pick);
    DriverLater(w, Perform(w, CallOf(d), fault, pick).0, d);
  }

  lemma SameError(t: World, u: World, d: Driver)
    requires u == t.(drivers := u.drivers) && ErrorOK(t, d)
    ensures ErrorOK(u, d)
  {}

  lemma StepErrors(w: World, e: Event)
    requires Inv(w) && ErrorsOK(w)
    ensures ErrorsOK(Step(w, e))
  {
    hide Inv, ErrorOK;
    match e
    case Act(id, _, _) => if id in w.drivers { ActErrors(w, e); }
    case _ =>
      var t := Step(w, e);
      forall i | i in t.drivers ensures ErrorOK(t, t.drivers[i]) {
        if i in w.drivers { SameError(w, t, w.drivers[i]); } else { StartError(t, e); }
      }
  }

  lemma StartError(w: World, e: Event)
    requires !e.Act?
    ensures ErrorOK(w, if e.Execute? then StartExecute(e.request) else StartResume(e.request))
  {}

  lemma {:induction false} RunErrors(es: seq<Event>)
    ensures ErrorsOK(RunAll(FRESH, es))
  {
    hide Inv, Step, ErrorOK;
    if es != [] {
      RunErrors(es[..|es| - 1]);
      RunKeeps(es[..|es| - 1]);
      StepErrors(RunAll(FRESH, es[..|es| - 1]), es[|es| - 1]);
    }
  }

  /** Over every run: invalid requests are exactly those that validate refuses, a digest
      conflict is reported only for a record of another request, and the errors for an
      unknown status, an undecodable result and a saga that does not converge are never
      reported. */
  lemma ErrorsAreTrue(es: seq<Event>, id: nat)
    requires id in RunAll(FRESH, es).drivers
    ensures var w := RunAll(FRESH, es);
      var (d, run) := (w.drivers[id], w.drivers[id].run);
      && (run == Finished(Error(InvalidRequest)) <==> !Valid(d.request))
      && (run == Finished(Error(DigestConflict)) ==>
            d.checked && w.record.Some? && !SameIdentity(d.request, w.record.value.value.request))
      && run != Finished(Error(UnknownStatus)) && run != Finished(Error(UndecodableResult))
      && run != Finished(Error(NotConverged))
  {
    RunErrors(es);
    RunKeeps(es);
    var w := RunAll(FRESH, es);
    assert ErrorOK(w, w.drivers[id]);
    if w.drivers[id].run == Finished(Error(DigestConflict)) {
      PreimageDetermines(w.drivers[id].request, w.record.value.value.request);
    }
    hide RunAll, Preimage, Valid;
  }

  /** A caller is told that the outcome is unknown only in the step that notes the
      transport error in a record it leaves at its status. */
  lemma UnknownIsNoted(w: World, e: Event)
    requires Inv(w) && e.Act? && e.id in w.drivers
    requires w.drivers[e.id].run != Finished(OutcomeUnknown) && Step(w, e).drivers[e.id].run == Finished(OutcomeUnknown)
    ensures var t := Step(w, e);
      && w.record.Some? && t.record.Some?
      && t.record.value.value == w.record.value.value.(code := TransportError)
      && t == w.(record := t.record, drivers := t.drivers)
  {
    hide Valid, Preimage, Facts, Matches;
    assert DriverOK(w, w.drivers[e.id]);
  }

  // ------------------------------------------------------------- whose request

  /** The request of some driver; of an Execute, one that agrees with the record's. */
  ghost predicate From(w: World, q: Request) {
    exists id :: id in w.drivers && w.drivers[id].request == q
      && (w.drivers[id].checked ==> w.record.Some? && SameIdentity(q, w.record.value.value.request))
  }

  /** The owner applied, the visitor reserved and the record was created for the request
      of a caller. */
  ghost predicate Requested(w: World) {
    && (w.record.Some? ==> From(w, w.record.value.value.request))
    && (w.applied.Some? ==> From(w, w.applied.value.request))
    && (w.hold.Some? ==> From(w, w.hold.value.request))
  }

  lemma FromLater(w: World, t: World, q: Request)
    requires From(w, q) && Later(w, t)
    requires forall id :: id in w.drivers ==>
      id in t.drivers && t.drivers[id].request == w.drivers[id].request && t.drivers[id].checked == w.drivers[id].checked
    requires w.record.Some?
    ensures From(t, q)
  {
    hide SameIdentity;
    var id :| id in w.drivers && w.drivers[id].request == q
      && (w.drivers[id].checked ==> w.record.Some? && SameIdentity(q, w.record.value.value.request));
    assert t.drivers[id].request == q;
  }

  /** A driver at work acts for its own request. */
  lemma FromDriver(w: World, id: nat)
    requires id in w.drivers && w.drivers[id].run.Advancing? && DriverOK(w, w.drivers[id])
    ensures From(w, w.drivers[id].request)
  {
    var d := w.drivers[id];
    if d.checked { PreimageDetermines(d.request, w.record.value.value.request); }
  }

  /** What a call of a driver can add to the tables. */
  lemma NewOnes(w: World, d: Driver, fault: Fault, pick: Pick)
    requires DriverOK(w, d)
    ensures var t := Perform(w, CallOf(d), fault, pick).0;
      && (t.record.Some? && w.record.None? ==> t.record.value.value.request == d.request)
      && (t.applied != w.applied ==> d.run.Advancing? && t.applied.Some? && t.applied.value.request == d.request)
      && (t.hold.Some? && w.hold.None? ==> d.run.Advancing? && t.hold.value.request == d.request)
      && (w.hold.Some? ==> t.hold.Some? && t.hold.value.request == w.hold.value.request)
  {
    hide Facts, Owned, Matches, Valid;
  }

  lemma StepRequested(w: World, e: Event)
    requires Inv(w) && Requested(w)
    ensures Requested(Step(w, e))
  {
    hide DriverOK, Facts, Apply, CallOf, Valid, SameIdentity, From;
    var t := Step(w, e);
    StepKeeps(w, e);
    SameCallers(w, e);
    if w.record.Some? {
      if w.applied.Some? { FromLater(w, t, w.applied.value.request); }
      if w.hold.Some? { FromLater(w, t, w.hold.value.request); }
      FromLater(w, t, w.record.value.value.request);
    }
    if e.Act? && e.id in w.drivers {
      var d := w.drivers[e.id];
      NewOnes(w, d, e.fault, e.pick);
      if d.run.Advancing? {
        FromDriver(w, e.id);
        assert w.record.Some? by { AtWork(w, d); }
        FromLater(w, t, d.request);
      }
      if w.record.None? && t.record.Some? { Creator(t, e.id); }
    }
  }

  lemma AtWork(w: World, d: Driver)
    requires DriverOK(w, d) && d.run.Advancing?
    ensures w.record.Some?
  {}

  lemma Creator(t: World, id: nat)
    requires id in t.drivers && t.record.Some? && t.record.value.value.request == t.drivers[id].request
    ensures From(t, t.record.value.value.request)
  {}

  lemma SameCallers(w: World, e: Event)
    ensures var t := Step(w, e);
      forall id :: id in w.drivers ==>
        id in t.drivers && t.drivers[id].request == w.drivers[id].request && t.drivers[id].checked == w.drivers[id].checked
  {
    hide CallOf, Apply;
    if e.Act? && e.id in w.drivers { SameTablesDrivers(w, CallOf(w.drivers[e.id]), e.fault, e.pick); }
  }

  lemma SameTablesDrivers(w: World, c: Call, fault: Fault, pick: Pick)
    ensures Perform(w, c, fault, pick).0.drivers == w.drivers
  {}

  /** Over every run the record was created, the reservation made and the action applied
      for the request of a caller; and of an Execute caller only for one that agrees with
      the record on all digested fields. */
  lemma {:induction false} OnlyWhatWasRequested(es: seq<Event>)
    ensures Requested(RunAll(FRESH, es))
  {
    hide Inv, Step, Requested;
    if es == [] {
      NothingRequested();
    } else {
      OnlyWhatWasRequested(es[..|es| - 1]);
      RunKeeps(es[..|es| - 1]);
      StepRequested(RunAll(FRESH, es[..|es| - 1]), es[|es| - 1]);
    }
  }

  lemma NothingRequested()
    ensures Requested(FRESH)
  {}

  // ------------------------------------------------------------- causes

  /** Something happens to a call of driver `id`: it fails, it loses the compare-and-swap,
      Resume finds no record, or visitor or owner neither do what is asked nor refuse it. */
  predicate Trouble(w: World, e: Event, id: nat) {
    && e.Act? && e.id == id && id in w.drivers
    && var c := CallOf(w.drivers[id]);
       || !e.fault.Fine?
       || (c.Get? && w.record.None? && !w.drivers[id].checked)
       || (c.Update? && w.record.Some? && w.record.value.version != c.version)
       || ((c.Reserve? || c.AskOwner?) && !e.pick.yes && !e.pick.reject)
       || (c.Commit? && w.committed.None?
           && !(e.pick.yes && w.hold.Some? && w.hold.value.state == Reserved && IsFor(w.hold.value, c.request)))
  }

  ghost predicate EverTrouble(es: seq<Event>, id: nat) {
    es != [] && (EverTrouble(es[..|es| - 1], id) || Trouble(RunAll(FRESH, es[..|es| - 1]), es[|es| - 1], id))
  }

  /** No failure is reported, nor about to be noted. */
  predicate Calm(w: World, d: Driver) {
    && d.run != Finished(Error(StoreFailed)) && d.run != Finished(OutcomeUnknown)
    && (d.run.Advancing? && d.run.at.Writing? ==> !d.run.at.retry)
    && (d.run.EntryReget? ==> w.record.Some? && d.checked)
    && (d.run.EntryGet? || d.run.EntryInsert? ==> d.checked)
  }

  lemma ActCalm(w: World, e: Event, id: nat)
    requires Inv(w) && e.Act? && e.id == id && id in w.drivers && Calm(w, w.drivers[id]) && !Trouble(w, e, id)
    ensures Calm(Step(w, e), Step(w, e).drivers[id])
  {
    hide Valid, Preimage, Facts;
    assert DriverOK(w, w.drivers[id]);
  }

  lemma StepCalm(w: World, e: Event, id: nat)
    requires Inv(w) && !Trouble(w, e, id) && (id in w.drivers ==> Calm(w, w.drivers[id]))
    ensures id in Step(w, e).drivers ==> Calm(Step(w, e), Step(w, e).drivers[id])
  {
    hide DriverOK, Facts, Trouble, CallOf, Feed, Perform, Valid;
    StepKeeps(w, e);
    if e.Act? && e.id == id && id in w.drivers { ActCalm(w, e, id); }
  }

  lemma {:induction false} RunCalm(es: seq<Event>, id: nat)
    requires !EverTrouble(es, id) && id in RunAll(FRESH, es).drivers
    ensures Calm(RunAll(FRESH, es), RunAll(FRESH, es).drivers[id])
  {
    hide Inv, Step, Calm, Trouble;
    if es != [] {
      var front := es[..|es| - 1];
      RunKeeps(front);
      if id in RunAll(FRESH, front).drivers { RunCalm(front, id); }
      StepCalm(RunAll(FRESH, front), es[|es| - 1], id);
    }
  }

  /** Over every run: a caller is told that a store call failed, or that the outcome is
      unknown, only if something happened to one of its calls; losing the race to create
      the record is no such thing. */
  lemma FailuresHaveACause(es: seq<Event>, id: nat)
    requires id in RunAll(FRESH, es).drivers
    requires var run := RunAll(FRESH, es).drivers[id].run; run == Finished(Error(StoreFailed)) || run == Finished(OutcomeUnknown)
    ensures EverTrouble(es, id)
  {
    hide RunAll, EverTrouble;
    if !EverTrouble(es, id) { RunCalm(es, id); }
  }
}
