/** When EstablishFriendship reports an error: only if one of its calls failed, lost a
    compare-and-swap, found no account name or drew a relation ID that was taken. */
module FriendLinkErrors {
  import opened Common
  import opened FriendLists
  import opened FriendLinkDriver
  import opened FriendLinkWorld
  import opened FriendLinkSafety
  import opened FriendLinkTheorems

  /** Something happens to a call of driver `id` that an error may report. */
  predicate Trouble(w: World, e: Event, id: nat) {
    && e.Act? && e.id == id && id in w.drivers
    && var c := CallOf(w.drivers[id]);
       || !e.fault.Fine?
       || (c.UpdateSaga? && c.saga.link in w.store.sagas && w.store.sagas[c.saga.link].version != c.version)
       || (c.UpdateList? && c.player in w.store.lists && w.store.lists[c.player].version != c.version)
       || (c.AccountName? && (c.player !in w.store.names || w.store.names[c.player] == ""))
       || (c.MintRelation? && e.pick.relation in w.store.minted)
  }

  ghost predicate EverTrouble(owners: map<string, PlayerId>, es: seq<Event>, id: nat)
    decreases |es|
  {
    es != [] && (EverTrouble(owners, es[..|es| - 1], id)
                 || Trouble(RunAll(Empty(owners), es[..|es| - 1]), es[|es| - 1], id))
  }

  predicate Errs(run: Run) { run.Finished? && run.outcome.Error? }

  /** The error of arguments that name nobody, or one player twice. */
  predicate BadJob(d: Driver) {
    || (d.run == Fail(PlayerIdsRequired) && (d.job.owner == 0 || d.job.redeemer == 0))
    || (d.run == Fail(CannotFriendSelf) && d.job.owner == d.job.redeemer)
  }

  /** A row that was reported to exist is there to be read again. */
  predicate Rereads(s: Store, d: Driver) {
    match d.run
    case EntryReload => JobLink(d.job) in s.sagas
    case Advancing(at, g, _, _, _) =>
      && (at.RelationRead? ==> (g.low, g.high) in s.relations)
      && (at.Listing? && at.phase.Reread? ==> Subject(g, at.edit) in s.lists)
    case _ => true
  }

  predicate Calm(s: Store, d: Driver) { Rereads(s, d) && PacedRun(d.run) && (Errs(d.run) ==> BadJob(d)) }

  lemma CalmLater(s: Store, t: Store, d: Driver)
    requires Later(s, t) && Calm(s, d)
    ensures Calm(t, d)
  {}

  /** Where the loop goes without an error of its own. */
  lemma EntersCalm(s: Store, j: Job, g: Saga, v: nat, n: nat, p: Purpose)
    requires g.status != Unspecified && n <= Rank(g.status)
    ensures Calm(s, Driver(j, Enter(j, g, v, n, p)))
  {
    EnterPaced(j, g, v, n, p);
  }

  lemma SettlesCalm(s: Store, j: Job, g: Saga, v: nat, n: nat, p: Purpose, e: Edit, ok: bool)
    requires n <= Rank(g.status) && EditStatus(e) == g.status
    ensures Calm(s, Driver(j, SettleEdit(g, v, n, p, e, ok)))
  {
    EditPaced(g, v, n, p, e, ok);
  }

  lemma DecidesCalm(s: Store, j: Job, g: Saga, v: nat, n: nat, p: Purpose, e: Edit, name: string, k: nat, l: FriendList, lv: nat)
    requires n <= Rank(g.status) && EditStatus(e) == g.status
    ensures Calm(s, Driver(j, Decide(g, v, n, p, e, name, k, l, lv)))
  {
    hide PlanFor, SettleEdit;
    DecidePaced(g, v, n, p, e, name, k, l, lv);
    SettlesCalm(s, j, g, v, n, p, e, true);
    SettlesCalm(s, j, g, v, n, p, e, false);
  }

  /** An answered list call. */
  lemma ListsCalm(s: Store, j: Job, g: Saga, v: nat, n: nat, p: Purpose, e: Edit, name: string, k: nat, phase: ListPhase, pick: Pick)
    requires Calm(s, Driver(j, Advancing(Listing(e, name, k, phase), g, v, n, p))) && Editing(g, phase, e, name)
    requires phase.Replace? ==> Subject(g, e) in s.lists && s.lists[Subject(g, e)].version == phase.listVersion
    ensures var (t, r) := Apply(s, AdvanceCall(Listing(e, name, k, phase), g, v), pick);
      Calm(t, Driver(j, FeedList(g, v, n, p, e, name, k, phase, r)))
  {
    hide PlanFor, SettleEdit, Decide;
    var (t, r) := Apply(s, AdvanceCall(Listing(e, name, k, phase), g, v), pick);
    SettlesCalm(t, j, g, v, n, p, e, true);
    if r.ListIs? { DecidesCalm(t, j, g, v, n, p, e, name, k, r.list, r.version); }
    if r.Done? { DecidesCalm(t, j, g, v, n, p, e, name, k, EMPTY_LIST, r.version); }
  }

  predicate Editing(g: Saga, phase: ListPhase, e: Edit, name: string) {
    EditStatus(e) == g.status && (phase.Replace? ==> PlanFor(g, e, name, phase.list).Write?)
  }

  lemma WritesCalm(s: Store, j: Job, g: Saga, v: nat, n: nat, p: Purpose, next: Saga, after: After, pick: Pick)
    requires Calm(s, Driver(j, WriteSaga(g, v, n, p, next, after))) && next.status != Unspecified
    requires next.link in s.sagas && s.sagas[next.link].version == v
    ensures var (t, r) := Apply(s, UpdateSaga(next, v), pick);
      Calm(t, Driver(j, FeedSagaWrite(j, v, n, p, next, after, r)))
  {
    hide Enter, CreditFrom, MailFrom, AfterCredits;
    var t := Apply(s, UpdateSaga(next, v), pick).0;
    FeedSagaWritePaced(j, g, v, n, p, next, after, Done(v + 1));
    if after == NextStep { EntersCalm(t, j, next, v + 1, n + 1, p); }
    GoesOnCalm(t, j, next, v + 1, n, p);
  }

  lemma GoesOnCalm(s: Store, j: Job, g: Saga, v: nat, n: nat, p: Purpose)
    ensures !Errs(CreditFrom(j, g, v, n, p, false)) && Rereads(s, Driver(j, CreditFrom(j, g, v, n, p, false)))
    ensures !Errs(AfterCredits(j, g, v, n, p)) && Rereads(s, Driver(j, AfterCredits(j, g, v, n, p)))
    ensures !Errs(MailFrom(g, v, n, p, ToInvitee)) && Rereads(s, Driver(j, MailFrom(g, v, n, p, ToInvitee)))
  {}

  /** A call that nothing happens to leads to no error. */
  lemma AdvancesCalm(w: World, e: Event)
    requires Inv(w) && e.Act? && e.id in w.drivers && w.drivers[e.id].run.Advancing?
    requires Calm(w.store, w.drivers[e.id]) && !Trouble(w, e, e.id)
    ensures var (t, r) := Apply(w.store, CallOf(w.drivers[e.id]), e.pick); Calm(t, Feed(w.drivers[e.id], r))
  {
    hide StoreOK, Stable, Slots, Enter, CreditFrom, MailFrom, AfterCredits;
    var d := w.drivers[e.id];
    assert DriverOK(w.store, d);
    var (at, g, v, n, p) := (d.run.at, d.run.saga, d.run.version, d.run.steps, d.run.purpose);
    FeedPaced(d, Apply(w.store, CallOf(d), e.pick).1);
    match at {
      case Listing(edit, name, k, phase) => ListsCalm(w.store, d.job, g, v, n, p, edit, name, k, phase, e.pick);
      case SagaWrite(next, after) =>
        StableStatus(w.store, next);
        WritesCalm(w.store, d.job, g, v, n, p, next, after, e.pick);
      case _ =>
    }
  }

  lemma StableStatus(s: Store, g: Saga)
    requires Stable(s, g)
    ensures g.status != Unspecified
  {}

  lemma EntryCalm(w: World, e: Event)
    requires Inv(w) && e.Act? && e.id in w.drivers && !w.drivers[e.id].run.Advancing?
    requires Calm(w.store, w.drivers[e.id]) && !Trouble(w, e, e.id)
    ensures var (t, r) := Apply(w.store, CallOf(w.drivers[e.id]), e.pick); Calm(t, Feed(w.drivers[e.id], r))
  {
    hide StoreOK, Enter, Known, Stable;
    var d := w.drivers[e.id];
    assert DriverOK(w.store, d);
    var (t, r) := Apply(w.store, CallOf(d), e.pick);
    FeedPaced(d, r);
    if r.SagaIs? {
      assert r.saga.status != Unspecified by { LoadedStatus(w.store, JobLink(d.job)); }
      EntersCalm(t, d.job, r.saga, r.version, 0, AlreadyFriends);
      EntersCalm(t, d.job, r.saga, r.version, 0, Establish(r.saga.status != Completed));
      EntersCalm(t, d.job, r.saga, r.version, 0, Reconcile);
    }
    if d.run.EntryInsert? && r.Done? { EntersCalm(t, d.job, d.run.draft, r.version, 0, Establish(true)); }
  }

  lemma LoadedStatus(s: Store, link: Link)
    requires StoreOK(s)
    ensures link in s.sagas ==> s.sagas[link].value.status != Unspecified
  {
    hide ListOK, RelationOK, CreditOK, RewardOK, MailOK;
    if link in s.sagas { assert SagaOK(s, link); }
  }

  lemma StepCalm(w: World, e: Event, id: nat)
    requires Inv(w) && !Trouble(w, e, id) && (id in w.drivers ==> Calm(w.store, w.drivers[id]))
    ensures id in Step(w, e).drivers ==> Calm(Step(w, e).store, Step(w, e).drivers[id])
  {
    hide StoreOK, DriverOK, Calm, Later, Apply, CallOf, Feed, Trouble;
    StepKeeps(w, e);
    if e.Act? && e.id == id && id in w.drivers {
      NoTrouble(w, e, id);
      if w.drivers[id].run.Advancing? { AdvancesCalm(w, e); } else { EntryCalm(w, e); }
    } else if id in w.drivers {
      CalmLater(w.store, Step(w, e).store, w.drivers[id]);
    } else if id in Step(w, e).drivers {
      BeginsCalm(w, e, id);
    }
  }

  lemma NoTrouble(w: World, e: Event, id: nat)
    requires e.Act? && e.id == id && id in w.drivers && !Trouble(w, e, id)
    ensures e.fault.Fine?
  {}

  lemma BeginsCalm(w: World, e: Event, id: nat)
    requires id !in w.drivers && id in Step(w, e).drivers
    ensures Calm(Step(w, e).store, Step(w, e).drivers[id])
  {
    hide CallOf, Feed, Apply;
  }

  lemma {:induction false} RunCalm(owners: map<string, PlayerId>, es: seq<Event>, id: nat)
    requires !EverTrouble(owners, es, id) && id in RunAll(Empty(owners), es).drivers
    ensures Calm(RunAll(Empty(owners), es).store, RunAll(Empty(owners), es).drivers[id])
    decreases |es|
  {
    hide Inv, Step, Calm, Trouble;
    if es != [] {
      var front := es[..|es| - 1];
      RunKeeps(owners, front);
      if id in RunAll(Empty(owners), front).drivers { RunCalm(owners, front, id); }
      StepCalm(RunAll(Empty(owners), front), es[|es| - 1], id);
    }
  }

  /** Over every run: a caller is told of an error only if its arguments name nobody or
      one player twice, or something happened to one of its calls. Races with other
      callers, a collaborator that does not accept, and lists, sagas and relations made by
      others in between lead to no error. */
  lemma ErrorsHaveACause(owners: map<string, PlayerId>, es: seq<Event>, id: nat)
    requires var w := RunAll(Empty(owners), es);
      id in w.drivers && w.drivers[id].run.Finished? && w.drivers[id].run.outcome.Error?
    ensures EverTrouble(owners, es, id) || BadJob(RunAll(Empty(owners), es).drivers[id])
  {
    hide RunAll, EverTrouble;
    if !EverTrouble(owners, es, id) { RunCalm(owners, es, id); }
  }
}
