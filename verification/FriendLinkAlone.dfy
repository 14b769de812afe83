/** What redeeming a code does when nobody disturbs it: every call is answered, the
    collaborators accept, and no other driver moves. From every reachable state the answer
    and the end of the saga are determined. */
module FriendLinkAlone {
  import opened Common
  import opened FriendLists
  import opened FriendLinkDriver
  import opened FriendLinkWorld
  import opened FriendLinkTheorems

  /** `n` answered calls of one driver. */
  function Alone(w: World, id: nat, pick: Pick, n: nat): World {
    if n == 0 then w else Step(Alone(w, id, pick, n - 1), Act(id, Fine, pick))
  }

  lemma {:induction false} AloneOn(w: World, id: nat, pick: Pick, m: nat, n: nat)
    ensures Alone(Alone(w, id, pick, m), id, pick, n) == Alone(w, id, pick, m + n)
    decreases n
  {
    hide Step;
    if n > 0 { AloneOn(w, id, pick, m, n - 1); }
  }

  lemma {:induction false} AloneRests(w: World, id: nat, pick: Pick, n: nat)
    requires id in w.drivers && w.drivers[id].run.Finished?
    ensures Alone(w, id, pick, n) == w
  {
    if n > 0 {
      AloneRests(w, id, pick, n - 1);
      OverStays(w, id, pick);
    }
  }

  lemma OverStays(w: World, id: nat, pick: Pick)
    requires id in w.drivers && w.drivers[id].run.Finished?
    ensures Step(w, Act(id, Fine, pick)) == w
  {
    assert w.drivers[id := w.drivers[id]] == w.drivers;
  }

  predicate Came(w: World, t: World, id: nat, pick: Pick, k: nat) { t == Alone(w, id, pick, k) && Inv(t) }

  predicate At(t: World, id: nat, j: Job, run: Run) { id in t.drivers && t.drivers[id] == Driver(j, run) }

  /** One answered call of the driver at this point. */
  lemma GoesTo(w: World, t: World, id: nat, pick: Pick, k: nat, j: Job, run: Run, s: Store, r: Reply) returns (u: World)
    requires Came(w, t, id, pick, k) && At(t, id, j, run) && Apply(t.store, CallOf(Driver(j, run)), pick) == (s, r)
    ensures Came(w, u, id, pick, k + 1) && u == World(s, t.drivers[id := Feed(Driver(j, run), r)])
    ensures At(u, id, j, Feed(Driver(j, run), r).run)
  {
    hide Apply, CallOf, FeedAdvance, Inv;
    u := Step(t, Act(id, Fine, pick));
    StepKeeps(t, Act(id, Fine, pick));
  }

  // ------------------------------------------------------------- a list edit

  function ListOf(s: Store, p: PlayerId): FriendList { if p in s.lists then s.lists[p].value else EMPTY_LIST }

  function PlanNow(s: Store, g: Saga, e: Edit, name: string): Plan { PlanFor(g, e, name, ListOf(s, Subject(g, e))) }

  ghost predicate Only(s: Store, t: Store, p: PlayerId) {
    t == s.(lists := t.lists)
    && (forall q :: q != p ==> (q in t.lists <==> q in s.lists) && (q in s.lists ==> t.lists[q] == s.lists[q]))
  }

  /** A list that is there is edited. */
  lemma EditsAlone(
    w: World, t: World, id: nat, pick: Pick, k: nat, j: Job, g: Saga, v: nat, n: nat, p: Purpose, e: Edit, name: string)
    returns (u: World, l: nat)
    requires Came(w, t, id, pick, k) && At(t, id, j, Advancing(Listing(e, name, 0, Read), g, v, n, p))
    requires Subject(g, e) in t.store.lists
    ensures k <= l <= k + 2 && Came(w, u, id, pick, l) && Only(t.store, u.store, Subject(g, e))
    ensures var plan := PlanNow(t.store, g, e, name);
      && At(u, id, j, SettleEdit(g, v, n, p, e, plan.Write? || plan.ok))
      && ListOf(u.store, Subject(g, e)) == if plan.Write? then plan.list else ListOf(t.store, Subject(g, e))
  {
    hide Came, PlanFor, SettleEdit;
    var row := t.store.lists[Subject(g, e)];
    var plan := PlanFor(g, e, name, row.value);
    u := GoesTo(w, t, id, pick, k, j, Advancing(Listing(e, name, 0, Read), g, v, n, p), t.store, ListIs(row.value, row.version));
    l := k + 1;
    if plan.Write? {
      u := GoesTo(w, u, id, pick, k + 1, j, Advancing(Listing(e, name, 0, Replace(row.value, row.version)), g, v, n, p),
                  t.store.(lists := t.store.lists[Subject(g, e) := Row(plan.list, row.version + 1)]), Done(row.version + 1));
      l := k + 2;
    }
  }

  /** A list that is not there is created empty and edited. */
  lemma CreatesAlone(
    w: World, t: World, id: nat, pick: Pick, k: nat, j: Job, g: Saga, v: nat, n: nat, p: Purpose, e: Edit, name: string)
    returns (u: World, l: nat)
    requires Came(w, t, id, pick, k) && At(t, id, j, Advancing(Listing(e, name, 0, Read), g, v, n, p))
    requires Subject(g, e) !in t.store.lists && !IsRelease(e)
    ensures k <= l <= k + 3 && Came(w, u, id, pick, l) && Only(t.store, u.store, Subject(g, e))
    ensures var plan := PlanNow(t.store, g, e, name);
      && At(u, id, j, SettleEdit(g, v, n, p, e, plan.Write? || plan.ok))
      && ListOf(u.store, Subject(g, e)) == if plan.Write? then plan.list else EMPTY_LIST
  {
    hide Came, PlanFor, SettleEdit;
    var q := Subject(g, e);
    var plan := PlanFor(g, e, name, EMPTY_LIST);
    u := GoesTo(w, t, id, pick, k, j, Advancing(Listing(e, name, 0, Read), g, v, n, p), t.store, NotFound);
    u := GoesTo(w, u, id, pick, k + 1, j, Advancing(Listing(e, name, 0, Create), g, v, n, p),
                t.store.(lists := t.store.lists[q := Row(EMPTY_LIST, 1)]), Done(1));
    l := k + 2;
    if plan.Write? {
      u := GoesTo(w, u, id, pick, k + 2, j, Advancing(Listing(e, name, 0, Replace(EMPTY_LIST, 1)), g, v, n, p),
                  u.store.(lists := u.store.lists[q := Row(plan.list, 2)]), Done(2));
      l := k + 3;
    }
  }

  /** Any edit for reserving or projecting. */
  lemma EditAlone(
    w: World, t: World, id: nat, pick: Pick, k: nat, j: Job, g: Saga, v: nat, n: nat, p: Purpose, e: Edit, name: string)
    returns (u: World, l: nat)
    requires Came(w, t, id, pick, k) && At(t, id, j, Advancing(Listing(e, name, 0, Read), g, v, n, p)) && !IsRelease(e)
    ensures k <= l <= k + 3 && Came(w, u, id, pick, l) && Only(t.store, u.store, Subject(g, e))
    ensures var plan := PlanNow(t.store, g, e, name);
      && At(u, id, j, SettleEdit(g, v, n, p, e, plan.Write? || plan.ok))
  {
    hide Came, PlanFor, SettleEdit;
    if Subject(g, e) in t.store.lists { u, l := EditsAlone(w, t, id, pick, k, j, g, v, n, p, e, name); }
    else { u, l := CreatesAlone(w, t, id, pick, k, j, g, v, n, p, e, name); }
  }

  lemma ReleaseAlone(
    w: World, t: World, id: nat, pick: Pick, k: nat, j: Job, g: Saga, v: nat, n: nat, p: Purpose, e: Edit)
    returns (u: World, l: nat)
    requires Came(w, t, id, pick, k) && At(t, id, j, Advancing(Listing(e, "", 0, Read), g, v, n, p)) && IsRelease(e)
    ensures k <= l <= k + 2 && Came(w, u, id, pick, l) && Only(t.store, u.store, Subject(g, e))
    ensures At(u, id, j, SettleEdit(g, v, n, p, e, true))
    ensures !Reserves(ListOf(u.store, Subject(g, e)).reservations, g.link)
  {
    hide Came, SettleEdit;
    var q := Subject(g, e);
    if q in t.store.lists {
      Releases(t.store, g, e);
      u, l := EditsAlone(w, t, id, pick, k, j, g, v, n, p, e, "");
    } else {
      u := GoesTo(w, t, id, pick, k, j, Advancing(Listing(e, "", 0, Read), g, v, n, p), t.store, NotFound);
      l := k + 1;
    }
  }

  lemma Releases(s: Store, g: Saga, e: Edit)
    requires IsRelease(e)
    ensures var (plan, list) := (PlanNow(s, g, e, ""), ListOf(s, Subject(g, e)));
      if plan.Write? then !Reserves(plan.list.reservations, g.link) else plan.ok && !Reserves(list.reservations, g.link)
  {
    WithoutSpec(ListOf(s, Subject(g, e)).reservations, g.link);
  }

  // ------------------------------------------------------------- status by status

  /** The driver is at the top of the loop with the durable saga. */
  predicate AtTop(t: World, id: nat, j: Job, g: Saga, n: nat, p: Purpose) {
    && JobLink(j) in t.store.sagas && t.store.sagas[JobLink(j)].value == g && g.link == JobLink(j)
    && At(t, id, j, Enter(j, g, t.store.sagas[JobLink(j)].version, n, p)) && n <= Rank(g.status)
  }

  /** A status is about to be persisted. */
  predicate AtWrite(t: World, id: nat, j: Job, g: Saga, n: nat, p: Purpose, next: Saga, after: After) {
    && JobLink(j) in t.store.sagas && t.store.sagas[JobLink(j)].value == g && next.link == JobLink(j)
    && At(t, id, j, WriteSaga(g, t.store.sagas[JobLink(j)].version, n, p, next, after))
  }

  function WithSaga(s: Store, g: Saga): Store
    requires g.link in s.sagas
  {
    s.(sagas := s.sagas[g.link := Row(g, s.sagas[g.link].version + 1)])
  }

  lemma WritesAlone(w: World, t: World, id: nat, pick: Pick, k: nat, j: Job, g: Saga, n: nat, p: Purpose, next: Saga, after: After)
    returns (u: World)
    requires Came(w, t, id, pick, k) && AtWrite(t, id, j, g, n, p, next, after)
    ensures Came(w, u, id, pick, k + 1) && u.store == WithSaga(t.store, next)
    ensures At(u, id, j, AfterSagaWrite(j, next, t.store.sagas[next.link].version + 1, n, p, after))
  {
    hide Came, AfterSagaWrite;
    var v := t.store.sagas[next.link].version;
    u := GoesTo(w, t, id, pick, k, j, WriteSaga(g, v, n, p, next, after), WithSaga(t.store, next), Done(v + 1));
  }

  lemma PersistsAlone(w: World, t: World, id: nat, pick: Pick, k: nat, j: Job, g: Saga, n: nat, p: Purpose, next: Saga)
    returns (u: World)
    requires Came(w, t, id, pick, k) && AtWrite(t, id, j, g, n, p, next, NextStep) && n < Rank(next.status)
    ensures Came(w, u, id, pick, k + 1) && u.store == WithSaga(t.store, next) && AtTop(u, id, j, next, n + 1, p)
  {
    hide Came, Enter;
    u := WritesAlone(w, t, id, pick, k, j, g, n, p, next, NextStep);
  }

  /** The call is over: the saga is COMPLETED with this relation, and the invitee's first
      friend has been claimed if the caller looks after rewards. */
  predicate Completes(u: World, id: nat, j: Job, p: Purpose, relation: RelationId) {
    && JobLink(j) in u.store.sagas
    && var g := u.store.sagas[JobLink(j)].value;
       && g.status == Completed && g.relation == relation && At(u, id, j, Return(g, p))
       && (j.mailer ==> Rewarded(u.store, g))
  }

  /** The invitee's row is claimed, by this saga or another, which then owes no mails. */
  predicate Rewarded(s: Store, g: Saga) {
    && g.link.redeemer in s.rewards
    && if g.claimed then g.inviterMail == MailApplied && g.inviteeMail == MailApplied
       else g.inviterMail == MailSkipped && g.inviteeMail == MailSkipped
  }

  /** The call is over: a credit was not accepted, and the saga waits there. */
  predicate Stops(u: World, id: nat, j: Job, p: Purpose, relation: RelationId) {
    && JobLink(j) in u.store.sagas
    && var g := u.store.sagas[JobLink(j)].value;
       g.status == TaskCrediting && g.lastError == TaskCreditFailed && g.relation == relation && At(u, id, j, Return(g, p))
  }

  predicate Ends(u: World, id: nat, j: Job, p: Purpose, relation: RelationId, pick: Pick) {
    if pick.accepts then Completes(u, id, j, p, relation) else Stops(u, id, j, p, relation)
  }

  /** What this saga has not done yet. */
  predicate Waits(g: Saga) {
    && !g.claimed && g.inviterMail == MailUnset && g.inviteeMail == MailUnset
    && (!Reached(g.status, TaskCrediting) ==> !g.lowCredited && !g.highCredited)
  }

  predicate Mailable(g: Saga) { g.claimed && g.inviterMail != MailSkipped && g.inviteeMail != MailSkipped }

  /** Reward mails still to be requested. */
  lemma MailsAlone(w: World, t: World, id: nat, pick: Pick, k: nat, j: Job, g: Saga, n: nat, p: Purpose)
    returns (u: World, l: nat)
    requires Came(w, t, id, pick, k) && AtTop(t, id, j, g, n, p) && g.status == RewardMailsCreated && j.mailer && pick.accepts
    requires j.redeemer in t.store.rewards && Mailable(g)
    ensures k <= l <= k + 5 && Came(w, u, id, pick, l) && Completes(u, id, j, p, g.relation)
  {
    hide Came;
    if Settles(g.inviterMail) {
      u, l := LastMailAlone(w, t, id, pick, k, j, g, n, p);
    } else {
      var h: Saga;
      u, h := OneMailAlone(w, t, id, pick, k, j, g, n, p, ToInviter);
      u, l := LastMailAlone(w, u, id, pick, k + 2, j, h, n, p);
    }
  }

  /** The invitee's mail, if it is still to be requested, and the end. */
  lemma LastMailAlone(w: World, t: World, id: nat, pick: Pick, k: nat, j: Job, g: Saga, n: nat, p: Purpose)
    returns (u: World, l: nat)
    requires Came(w, t, id, pick, k) && JobLink(j) in t.store.sagas && t.store.sagas[JobLink(j)].value == g
    requires g.link == JobLink(j) && g.status == RewardMailsCreated && j.mailer && pick.accepts
    requires g.claimed && g.inviterMail == MailApplied && g.inviteeMail != MailSkipped && n < Rank(Completed)
    requires j.redeemer in t.store.rewards
    requires At(t, id, j, AfterSagaWrite(j, g, t.store.sagas[JobLink(j)].version, n, p, NextMail(ToInviter)))
    ensures k <= l <= k + 3 && Came(w, u, id, pick, l) && Completes(u, id, j, p, g.relation)
  {
    hide Came;
    u, l := t, k;
    var h := g;
    if !Settles(g.inviteeMail) {
      u, h := OneMailAlone(w, t, id, pick, k, j, g, n, p, ToInvitee);
      l := k + 2;
    }
    u := PersistsAlone(w, u, id, pick, l, j, h, n, p, h.(status := Completed));
    l := l + 1;
  }

  lemma OneMailAlone(w: World, t: World, id: nat, pick: Pick, k: nat, j: Job, g: Saga, n: nat, p: Purpose, side: MailSide)
    returns (u: World, h: Saga)
    requires Came(w, t, id, pick, k) && pick.accepts && JobLink(j) in t.store.sagas && t.store.sagas[JobLink(j)].value == g
    requires g.link == JobLink(j) && At(t, id, j, Advancing(Mailing(side), g, t.store.sagas[JobLink(j)].version, n, p))
    ensures h == Mailed(g, side) && Came(w, u, id, pick, k + 2) && JobLink(j) in u.store.sagas && u.store.sagas[JobLink(j)].value == h
    ensures u.store.rewards == t.store.rewards
    ensures At(u, id, j, AfterSagaWrite(j, h, u.store.sagas[JobLink(j)].version, n, p, NextMail(side)))
  {
    hide Came, AfterSagaWrite;
    h := Mailed(g, side);
    var v := t.store.sagas[JobLink(j)].version;
    u := GoesTo(w, t, id, pick, k, j, Advancing(Mailing(side), g, v, n, p),
                t.store.(mails := t.store.mails + {Mail(SourceId(g.link.redeemer, side), Recipient(g, side))}), Done(0));
    u := WritesAlone(w, u, id, pick, k + 1, j, g, n, p, h, NextMail(side));
  }

  /** The first-friend row of the invitee is claimed, or found claimed. */
  lemma FirstRewardAlone(w: World, t: World, id: nat, pick: Pick, k: nat, j: Job, g: Saga, n: nat, p: Purpose)
    returns (u: World, l: nat)
    requires Came(w, t, id, pick, k) && AtTop(t, id, j, g, n, p) && g.status == FirstRewardChecked && j.mailer && pick.accepts
    requires !g.claimed && g.inviterMail == MailUnset
    ensures k <= l <= k + 7 && Came(w, u, id, pick, l) && Completes(u, id, j, p, g.relation)
  {
    hide Came, AtTop, Completes, Alone;
    var first;
    u, first := ClaimRowAlone(w, t, id, pick, k, j, g, n, p);
    var next := Checked(g.(lastError := NoError), first);
    l := k + 2;
    if first { u, l := MailsAlone(w, u, id, pick, k + 2, j, next, n + 1, p); }
    else { NothingLeft(u, id, j, next, n + 1, p); }
  }

  lemma NothingLeft(u: World, id: nat, j: Job, g: Saga, n: nat, p: Purpose)
    requires AtTop(u, id, j, g, n, p) && g.status == Completed && Rewarded(u.store, g)
    ensures Completes(u, id, j, p, g.relation)
  {}

  lemma ClaimRowAlone(w: World, t: World, id: nat, pick: Pick, k: nat, j: Job, g: Saga, n: nat, p: Purpose)
    returns (u: World, first: bool)
    requires Came(w, t, id, pick, k) && AtTop(t, id, j, g, n, p) && g.status == FirstRewardChecked
    requires !g.claimed && g.inviterMail == MailUnset
    ensures Came(w, u, id, pick, k + 2) && AtTop(u, id, j, Checked(g.(lastError := NoError), first), n + 1, p)
    ensures j.redeemer in u.store.rewards && g.link.redeemer in u.store.rewards
  {
    hide Came, Alone, Enter, Checked;
    u, first := RowAlone(w, t, id, pick, k, j, g, n, p);
    CheckedRanks(g.(lastError := NoError), first);
    u := PersistsAlone(w, u, id, pick, k + 1, j, g, n, p, Checked(g.(lastError := NoError), first));
  }

  lemma CheckedRanks(g: Saga, first: bool)
    ensures 7 <= Rank(Checked(g, first).status) && Checked(g, first).link == g.link
  {}

  lemma RowAlone(w: World, t: World, id: nat, pick: Pick, k: nat, j: Job, g: Saga, n: nat, p: Purpose)
    returns (u: World, first: bool)
    requires Came(w, t, id, pick, k) && AtTop(t, id, j, g, n, p) && g.status == FirstRewardChecked
    requires !g.claimed && g.inviterMail == MailUnset
    ensures Came(w, u, id, pick, k + 1) && u.store == t.store.(rewards := u.store.rewards) && j.redeemer in u.store.rewards
    ensures AtWrite(u, id, j, g, n, p, Checked(g.(lastError := NoError), first), NextStep)
  {
    hide Came, Alone;
    assert At(t, id, j, Advancing(Claiming, g, t.store.sagas[JobLink(j)].version, n, p));
    hide Enter;
    var v := t.store.sagas[JobLink(j)].version;
    first := g.link.redeemer !in t.store.rewards;
    var s := if first then t.store.(rewards := t.store.rewards[g.link.redeemer := Reward(g.owner, g.relation, g.link.code)])
             else t.store;
    u := GoesTo(w, t, id, pick, k, j, Advancing(Claiming, g, v, n, p), s, ClaimIs(first));
  }

  /** The credits still to be given, and what follows. */
  lemma CreditsAlone(w: World, t: World, id: nat, pick: Pick, k: nat, j: Job, g: Saga, n: nat, p: Purpose)
    returns (u: World, l: nat)
    requires Came(w, t, id, pick, k) && AtTop(t, id, j, g, n, p) && g.status == TaskCrediting && Waits(g)
    requires pick.accepts || !(g.lowCredited && g.highCredited)
    ensures k <= l <= k + 12 && Came(w, u, id, pick, l) && Ends(u, id, j, p, g.relation, pick)
  {
    hide Came;
    if pick.accepts { u, l := CreditsGiven(w, t, id, pick, k, j, g, n, p); }
    else { u := CreditRefused(w, t, id, pick, k, j, g, n, p); l := k + 2; }
  }

  /** A credit that is not accepted is noted, and the call is over all the same. */
  lemma CreditRefused(w: World, t: World, id: nat, pick: Pick, k: nat, j: Job, g: Saga, n: nat, p: Purpose)
    returns (u: World)
    requires Came(w, t, id, pick, k) && AtTop(t, id, j, g, n, p) && g.status == TaskCrediting
    requires !pick.accepts && !(g.lowCredited && g.highCredited)
    ensures Came(w, u, id, pick, k + 2) && Stops(u, id, j, p, g.relation)
  {
    hide Came;
    var v := t.store.sagas[JobLink(j)].version;
    var low := !g.lowCredited;
    u := GoesTo(w, t, id, pick, k, j, Advancing(Crediting(low), g, v, n, p), t.store, Failed);
    u := WritesAlone(w, u, id, pick, k + 1, j, g, n, p, g.(lastError := TaskCreditFailed), StopHere);
  }

  lemma CreditsGiven(w: World, t: World, id: nat, pick: Pick, k: nat, j: Job, g: Saga, n: nat, p: Purpose)
    returns (u: World, l: nat)
    requires Came(w, t, id, pick, k) && AtTop(t, id, j, g, n, p) && g.status == TaskCrediting && pick.accepts && Waits(g)
    ensures k <= l <= k + 12 && Came(w, u, id, pick, l) && Completes(u, id, j, p, g.relation)
  {
    hide Came;
    u, l := t, k;
    var h := g;
    if !g.lowCredited {
      u, h := OneCreditAlone(w, t, id, pick, k, j, g, n, p, true);
      l := k + 2;
    }
    if !g.highCredited {
      u, h := OneCreditAlone(w, u, id, pick, l, j, h, n, p, false);
      l := l + 2;
    }
    var next := h.(status := if j.mailer then FirstRewardChecked else Completed);
    u := PersistsAlone(w, u, id, pick, l, j, h, n, p, next);
    l := l + 1;
    if j.mailer { u, l := FirstRewardAlone(w, u, id, pick, l, j, next, n + 1, p); }
  }

  lemma OneCreditAlone(w: World, t: World, id: nat, pick: Pick, k: nat, j: Job, g: Saga, n: nat, p: Purpose, low: bool)
    returns (u: World, h: Saga)
    requires Came(w, t, id, pick, k) && pick.accepts && JobLink(j) in t.store.sagas && t.store.sagas[JobLink(j)].value == g
    requires g.link == JobLink(j) && At(t, id, j, Advancing(Crediting(low), g, t.store.sagas[JobLink(j)].version, n, p))
    ensures h == Credited(g, low) && Came(w, u, id, pick, k + 2) && JobLink(j) in u.store.sagas && u.store.sagas[JobLink(j)].value == h
    ensures At(u, id, j, AfterSagaWrite(j, h, u.store.sagas[JobLink(j)].version, n, p, NextCredit(low)))
  {
    hide Came, AfterSagaWrite;
    h := Credited(g, low);
    var v := t.store.sagas[JobLink(j)].version;
    u := GoesTo(w, t, id, pick, k, j, Advancing(Crediting(low), g, v, n, p),
                t.store.(credits := t.store.credits + {(if low then g.low else g.high, g.relation)}), Done(0));
    u := WritesAlone(w, u, id, pick, k + 1, j, g, n, p, h, NextCredit(low));
  }

  // ------------------------------------------------------------- projections

  /** Both account names are there to be read. */
  predicate NamesKnown(s: Store, g: Saga) {
    && g.low in s.names && s.names[g.low] != "" && g.high in s.names && s.names[g.high] != ""
  }


  lemma ProjectedAlone(w: World, t: World, id: nat, pick: Pick, k: nat, j: Job, g: Saga, n: nat, p: Purpose)
    returns (u: World, l: nat)
    requires Came(w, t, id, pick, k) && AtTop(t, id, j, g, n, p) && g.status == ProjectionsApplied && Waits(g)
    ensures k <= l <= k + 13 && Came(w, u, id, pick, l) && Ends(u, id, j, p, g.relation, pick)
  {
    hide Came, Ends, Alone;
    u := PersistsAlone(w, t, id, pick, k, j, g, n, p, g.(status := TaskCrediting));
    u, l := CreditsAlone(w, u, id, pick, k + 1, j, g.(status := TaskCrediting), n + 1, p);
  }

  /** One side: the friend's name is read and the list edited. */
  lemma ProjectsAlone(w: World, t: World, id: nat, pick: Pick, k: nat, j: Job, g: Saga, v: nat, n: nat, p: Purpose, e: Edit)
    returns (u: World, l: nat)
    requires Came(w, t, id, pick, k) && At(t, id, j, Advancing(NameRead(e), g, v, n, p)) && (e == ConsumeLow || e == ConsumeHigh)
    requires NamesKnown(t.store, g)
    ensures k <= l <= k + 4 && Came(w, u, id, pick, l) && Only(t.store, u.store, Subject(g, e))
    ensures At(u, id, j, SettleEdit(g, v, n, p, e, true))
  {
    hide Came, PlanFor, SettleEdit;
    var name := t.store.names[Other(g, e)];
    u := GoesTo(w, t, id, pick, k, j, Advancing(NameRead(e), g, v, n, p), t.store, NameIs(name));
    u, l := EditAlone(w, u, id, pick, k + 1, j, g, v, n, p, e, name);
    ConsumesSettle(t.store, g, e, name);
  }

  lemma ConsumesSettle(s: Store, g: Saga, e: Edit, name: string)
    requires e == ConsumeLow || e == ConsumeHigh
    ensures var plan := PlanNow(s, g, e, name); plan.Write? || plan.ok
  {
    hide Freed;
  }

  lemma RelationActiveAlone(w: World, t: World, id: nat, pick: Pick, k: nat, j: Job, g: Saga, n: nat, p: Purpose)
    returns (u: World, l: nat)
    requires Came(w, t, id, pick, k) && AtTop(t, id, j, g, n, p) && g.status == RelationActive && Waits(g)
    requires NamesKnown(t.store, g)
    ensures k <= l <= k + 22 && Came(w, u, id, pick, l) && Ends(u, id, j, p, g.relation, pick)
  {
    hide Came, Ends, Alone;
    var v := t.store.sagas[JobLink(j)].version;
    u, l := ProjectsAlone(w, t, id, pick, k, j, g, v, n, p, ConsumeLow);
    u, l := ProjectsAlone(w, u, id, pick, l, j, g, v, n, p, ConsumeHigh);
    hide Enter;
    u := PersistsAlone(w, u, id, pick, l, j, g, n, p, g.(status := ProjectionsApplied));
    u, l := ProjectedAlone(w, u, id, pick, l + 1, j, g.(status := ProjectionsApplied), n + 1, p);
  }

  // ------------------------------------------------------------- the relation

  /** The pair's relation, or the saga's own if there is none yet. */
  function PairRelation(s: Store, g: Saga): RelationId {
    if (g.low, g.high) in s.relations then s.relations[(g.low, g.high)] else g.relation
  }

  lemma BothReservedAlone(w: World, t: World, id: nat, pick: Pick, k: nat, j: Job, g: Saga, n: nat, p: Purpose)
    returns (u: World, l: nat)
    requires Came(w, t, id, pick, k) && AtTop(t, id, j, g, n, p) && g.status == BothReserved && Waits(g)
    requires NamesKnown(t.store, g)
    ensures k <= l <= k + 25 && Came(w, u, id, pick, l) && Ends(u, id, j, p, PairRelation(t.store, g), pick)
  {
    hide Came, Ends, Alone;
    var next := g.(status := RelationActive, relation := PairRelation(t.store, g));
    u, l := RelatesAlone(w, t, id, pick, k, j, g, n, p);
    hide Enter;
    u := PersistsAlone(w, u, id, pick, l, j, g, n, p, next);
    u, l := RelationActiveAlone(w, u, id, pick, l + 1, j, next, n + 1, p);
  }

  lemma RelatesAlone(w: World, t: World, id: nat, pick: Pick, k: nat, j: Job, g: Saga, n: nat, p: Purpose)
    returns (u: World, l: nat)
    requires Came(w, t, id, pick, k) && AtTop(t, id, j, g, n, p) && g.status == BothReserved
    ensures k <= l <= k + 2 && Came(w, u, id, pick, l) && u.store == t.store.(relations := u.store.relations)
    ensures AtWrite(u, id, j, g, n, p, g.(status := RelationActive, relation := PairRelation(t.store, g)), NextStep)
  {
    hide Came, Alone;
    var v := t.store.sagas[JobLink(j)].version;
    if (g.low, g.high) in t.store.relations {
      u := GoesTo(w, t, id, pick, k, j, Advancing(RelationCreate, g, v, n, p), t.store, AlreadyExists);
      u := GoesTo(w, u, id, pick, k + 1, j, Advancing(RelationRead, g, v, n, p), u.store, RelationIs(t.store.relations[(g.low, g.high)]));
      l := k + 2;
    } else {
      u := GoesTo(w, t, id, pick, k, j, Advancing(RelationCreate, g, v, n, p),
                  t.store.(relations := t.store.relations[(g.low, g.high) := g.relation]), Done(1));
      l := k + 1;
    }
  }

  // ------------------------------------------------------------- turning back

  /** The call is over: the saga is aborted and holds no slot. */
  predicate TurnedBack(u: World, id: nat, j: Job, p: Purpose, relation: RelationId) {
    && JobLink(j) in u.store.sagas
    && var g := u.store.sagas[JobLink(j)].value;
       && g.status == Aborted && g.relation == relation && At(u, id, j, Return(g, p))
       && !Reserves(ListOf(u.store, g.low).reservations, JobLink(j))
       && !Reserves(ListOf(u.store, g.high).reservations, JobLink(j))
  }

  lemma ReleasingAlone(w: World, t: World, id: nat, pick: Pick, k: nat, j: Job, g: Saga, n: nat, p: Purpose)
    returns (u: World, l: nat)
    requires Came(w, t, id, pick, k) && AtTop(t, id, j, g, n, p) && g.status == Releasing && g.low != g.high
    ensures k <= l <= k + 5 && Came(w, u, id, pick, l) && TurnedBack(u, id, j, p, g.relation)
  {
    hide Came, Alone, Reserves;
    var v := t.store.sagas[JobLink(j)].version;
    u, l := ReleaseAlone(w, t, id, pick, k, j, g, v, n, p, ReleaseLow);
    u, l := ReleaseAlone(w, u, id, pick, l, j, g, v, n, p, ReleaseHigh);
    u := PersistsAlone(w, u, id, pick, l, j, g, n, p, g.(status := Aborted));
    l := l + 1;
  }

  // ------------------------------------------------------------- reserving

  /** The player's list has a slot for the link, or the friend, or room for it. */
  predicate CanTake(s: Store, p: PlayerId, link: Link, friend: PlayerId) {
    PlanReserve(ListOf(s, p), link, friend) != Settled(false)
  }

  /** The call turns back, or the saga has. */
  predicate Turns(s: Store, g: Saga) {
    || g.status == Releasing || g.status == Aborted
    || (g.status == Init && !(CanTake(s, g.low, g.link, g.high) && CanTake(s, g.high, g.link, g.low)))
    || (g.status == LowReserved && !CanTake(s, g.high, g.link, g.low))
  }

  lemma ReservesAlone(w: World, t: World, id: nat, pick: Pick, k: nat, j: Job, g: Saga, n: nat, p: Purpose, e: Edit)
    returns (u: World, l: nat)
    requires Came(w, t, id, pick, k) && AtTop(t, id, j, g, n, p)
    requires (e == ReserveLow && g.status == Init) || (e == ReserveHigh && g.status == LowReserved)
    ensures var ok := CanTake(t.store, Subject(g, e), g.link, Other(g, e));
      var next := g.(status := if !ok then Releasing else if e == ReserveLow then LowReserved else BothReserved);
      && k <= l <= k + 4 && Came(w, u, id, pick, l) && AtTop(u, id, j, next, n + 1, p)
      && u.store == t.store.(lists := u.store.lists, sagas := u.store.sagas)
      && (forall q :: q != Subject(g, e) ==> ListOf(u.store, q) == ListOf(t.store, q))
  {
    hide Came, Alone, Enter, PlanReserve, CanTake;
    u, l := SlotAlone(w, t, id, pick, k, j, g, n, p, e);
    u := PersistsAlone(w, u, id, pick, l, j, g, n, p, AfterReserve(t.store, g, e));
    l := l + 1;
  }

  function AfterReserve(s: Store, g: Saga, e: Edit): Saga {
    g.(status := if !CanTake(s, Subject(g, e), g.link, Other(g, e)) then Releasing
                 else if e == ReserveLow then LowReserved else BothReserved)
  }

  lemma SlotAlone(w: World, t: World, id: nat, pick: Pick, k: nat, j: Job, g: Saga, n: nat, p: Purpose, e: Edit)
    returns (u: World, l: nat)
    requires Came(w, t, id, pick, k) && AtTop(t, id, j, g, n, p)
    requires (e == ReserveLow && g.status == Init) || (e == ReserveHigh && g.status == LowReserved)
    ensures k <= l <= k + 3 && Came(w, u, id, pick, l) && Only(t.store, u.store, Subject(g, e))
    ensures AtWrite(u, id, j, g, n, p, AfterReserve(t.store, g, e), NextStep)
  {
    hide Came, Alone, PlanReserve;
    var v := t.store.sagas[JobLink(j)].version;
    assert At(t, id, j, Advancing(Listing(e, "", 0, Read), g, v, n, p));
    hide Enter;
    u, l := EditAlone(w, t, id, pick, k, j, g, v, n, p, e, "");
    ReservePlans(t.store, g, e);
  }

  lemma ReservePlans(s: Store, g: Saga, e: Edit)
    requires e == ReserveLow || e == ReserveHigh
    ensures var plan := PlanNow(s, g, e, "");
      (plan.Write? || plan.ok) <==> CanTake(s, Subject(g, e), g.link, Other(g, e))
  {
    hide HasFriend, Reserves;
  }

  lemma LowReservedAlone(w: World, t: World, id: nat, pick: Pick, k: nat, j: Job, g: Saga, n: nat, p: Purpose)
    returns (u: World, l: nat)
    requires Came(w, t, id, pick, k) && AtTop(t, id, j, g, n, p) && g.status == LowReserved && Waits(g)
    requires NamesKnown(t.store, g) && g.low != g.high
    ensures k <= l <= k + 29 && Came(w, u, id, pick, l)
    ensures if CanTake(t.store, g.high, g.link, g.low) then Ends(u, id, j, p, PairRelation(t.store, g), pick)
            else TurnedBack(u, id, j, p, g.relation)
  {
    hide Came, Alone, Ends, TurnedBack, AtTop, CanTake;
    u, l := ReservesAlone(w, t, id, pick, k, j, g, n, p, ReserveHigh);
    if CanTake(t.store, g.high, g.link, g.low) {
      u, l := BothReservedAlone(w, u, id, pick, l, j, g.(status := BothReserved), n + 1, p);
    } else {
      u, l := ReleasingAlone(w, u, id, pick, l, j, g.(status := Releasing), n + 1, p);
    }
  }

  lemma InitAlone(w: World, t: World, id: nat, pick: Pick, k: nat, j: Job, g: Saga, n: nat, p: Purpose)
    returns (u: World, l: nat)
    requires Came(w, t, id, pick, k) && AtTop(t, id, j, g, n, p) && g.status == Init && Waits(g)
    requires NamesKnown(t.store, g) && g.low != g.high
    ensures k <= l <= k + 33 && Came(w, u, id, pick, l)
    ensures if Turns(t.store, g) then TurnedBack(u, id, j, p, g.relation)
            else Ends(u, id, j, p, PairRelation(t.store, g), pick)
  {
    hide Came, Alone, Ends, TurnedBack, AtTop, PlanReserve;
    u, l := ReservesAlone(w, t, id, pick, k, j, g, n, p, ReserveLow);
    if CanTake(t.store, g.low, g.link, g.high) {
      u, l := LowReservedAlone(w, u, id, pick, l, j, g.(status := LowReserved), n + 1, p);
    } else {
      u, l := ReleasingAlone(w, u, id, pick, l, j, g.(status := Releasing), n + 1, p);
    }
  }

  // ------------------------------------------------------------- from any status

  /** The call is over: the saga has gone all the way, or as far as a caller that does not
      look after rewards can take it, and the relation is this one. */
  predicate WentThrough(u: World, id: nat, j: Job, p: Purpose, relation: RelationId, was: Status) {
    && JobLink(j) in u.store.sagas
    && var g := u.store.sagas[JobLink(j)].value;
       && (g.status == Completed || (g.status == RewardMailsCreated && !j.mailer && (was == RewardMailsCreated || was == FirstRewardChecked)))
       && g.relation == relation && At(u, id, j, Return(g, p))
       && (j.mailer && was != Completed ==> Rewarded(u.store, g))
  }

  lemma SagaFacts(t: Store, link: Link)
    requires StoreOK(t) && link in t.sagas
    ensures var g := t.sagas[link].value;
      && g.link == link && g.low < g.high && g.status != Unspecified && Known(t, link) && (g.low, g.high) == PairOf(t, link)
      && (g.status != RewardMailsCreated && g.status != Completed ==> Waits(g))
      && (g.status == RewardMailsCreated ==> link.redeemer in t.rewards && Mailable(g))
      && (Reached(g.status, RelationActive) ==> PairRelation(t, g) == g.relation)
      && (g.status == Completed ==> g.lastError == NoError)
  {
    hide ListOK, RelationOK, CreditOK, RewardOK, MailOK;
    assert SagaOK(t, link);
  }

  lemma TopFacts(w: World, t: World, id: nat, pick: Pick, k: nat, j: Job, g: Saga, n: nat, p: Purpose)
    requires Came(w, t, id, pick, k) && AtTop(t, id, j, g, n, p)
    ensures g.low != g.high && g.status != Unspecified && (g.status != RewardMailsCreated && g.status != Completed ==> Waits(g))
    ensures g.status == RewardMailsCreated ==> j.redeemer in t.store.rewards && Mailable(g)
    ensures Reached(g.status, RelationActive) ==> PairRelation(t.store, g) == g.relation
    ensures g.status == Aborted ==> At(t, id, j, Return(g, p))
  {
    hide StoreOK, Alone;
    SagaFacts(t.store, JobLink(j));
  }

  lemma FromTop(w: World, t: World, id: nat, pick: Pick, k: nat, j: Job, g: Saga, n: nat, p: Purpose)
    returns (u: World, l: nat)
    requires Came(w, t, id, pick, k) && AtTop(t, id, j, g, n, p) && NamesKnown(t.store, g)
    requires pick.accepts || !Reached(g.status, TaskCrediting)
    ensures k <= l <= k + 33 && Came(w, u, id, pick, l)
    ensures if g.status == Aborted then u == t && At(u, id, j, Return(g, p))
            else if Turns(t.store, g) then TurnedBack(u, id, j, p, g.relation)
            else if pick.accepts then WentThrough(u, id, j, p, PairRelation(t.store, g), g.status)
            else Stops(u, id, j, p, PairRelation(t.store, g))
  {
    hide Came, Alone, Completes, Stops, TurnedBack, PlanReserve, CanTake, StoreOK, Inv, WentThrough, Known, Waits, AtTop;
    TopFacts(w, t, id, pick, k, j, g, n, p);
    u, l := t, k;
    match g.status {
      case Init => u, l := InitAlone(w, t, id, pick, k, j, g, n, p); Through(u, id, j, p, PairRelation(t.store, g), g.status);
      case LowReserved =>
        u, l := LowReservedAlone(w, t, id, pick, k, j, g, n, p);
        Through(u, id, j, p, PairRelation(t.store, g), g.status);
      case BothReserved =>
        u, l := BothReservedAlone(w, t, id, pick, k, j, g, n, p);
        Through(u, id, j, p, PairRelation(t.store, g), g.status);
      case Releasing => u, l := ReleasingAlone(w, t, id, pick, k, j, g, n, p);
      case Aborted =>
      case _ => u, l := FromRelated(w, t, id, pick, k, j, g, n, p);
    }
  }

  lemma Through(u: World, id: nat, j: Job, p: Purpose, relation: RelationId, was: Status)
    ensures Completes(u, id, j, p, relation) ==> WentThrough(u, id, j, p, relation, was)
  {}

  lemma FromRelated(w: World, t: World, id: nat, pick: Pick, k: nat, j: Job, g: Saga, n: nat, p: Purpose)
    returns (u: World, l: nat)
    requires Came(w, t, id, pick, k) && AtTop(t, id, j, g, n, p) && NamesKnown(t.store, g)
    requires pick.accepts || !Reached(g.status, TaskCrediting)
    requires Reached(g.status, RelationActive) && (g.status != RewardMailsCreated && g.status != Completed ==> Waits(g))
    requires g.status == RewardMailsCreated ==> j.redeemer in t.store.rewards && Mailable(g)
    ensures k <= l <= k + 33 && Came(w, u, id, pick, l)
    ensures if pick.accepts then WentThrough(u, id, j, p, g.relation, g.status) else Stops(u, id, j, p, g.relation)
  {
    hide Came, Alone, Completes, Stops, WentThrough;
    u, l := t, k;
    if g.status == RelationActive { u, l := RelationActiveAlone(w, t, id, pick, k, j, g, n, p); }
    else if g.status == ProjectionsApplied { u, l := ProjectedAlone(w, t, id, pick, k, j, g, n, p); }
    else if g.status == TaskCrediting { u, l := CreditsAlone(w, t, id, pick, k, j, g, n, p); }
    else if g.status == FirstRewardChecked { u, l := RewardsAlone(w, t, id, pick, k, j, g, n, p); }
    else if g.status == RewardMailsCreated && j.mailer { u, l := MailsAlone(w, t, id, pick, k, j, g, n, p); }
    else { AtItsEnd(t, id, j, g, n, p); }
    Through(u, id, j, p, g.relation, g.status);
  }

  /** A caller that does not look after rewards still claims the row, and stops there. */
  lemma RewardsAlone(w: World, t: World, id: nat, pick: Pick, k: nat, j: Job, g: Saga, n: nat, p: Purpose)
    returns (u: World, l: nat)
    requires Came(w, t, id, pick, k) && AtTop(t, id, j, g, n, p) && g.status == FirstRewardChecked && pick.accepts && Waits(g)
    ensures k <= l <= k + 7 && Came(w, u, id, pick, l) && WentThrough(u, id, j, p, g.relation, g.status)
  {
    hide Came, AtTop, Completes, Alone, WentThrough;
    if j.mailer {
      u, l := FirstRewardAlone(w, t, id, pick, k, j, g, n, p);
      Through(u, id, j, p, g.relation, g.status);
    } else {
      var first;
      u, first := ClaimRowAlone(w, t, id, pick, k, j, g, n, p);
      l := k + 2;
      StopsAtMails(u, id, j, Checked(g.(lastError := NoError), first), n + 1, p);
    }
  }

  lemma StopsAtMails(t: World, id: nat, j: Job, g: Saga, n: nat, p: Purpose)
    requires AtTop(t, id, j, g, n, p) && (g.status == Completed || g.status == RewardMailsCreated) && !j.mailer
    ensures WentThrough(t, id, j, p, g.relation, FirstRewardChecked)
  {}

  lemma AtItsEnd(t: World, id: nat, j: Job, g: Saga, n: nat, p: Purpose)
    requires AtTop(t, id, j, g, n, p) && (g.status == Completed || (g.status == RewardMailsCreated && !j.mailer))
    ensures WentThrough(t, id, j, p, g.relation, g.status)
  {}

  // ------------------------------------------------------------- EstablishFriendship

  /** The saga the call works on: its own, or the one it is about to insert. */
  function OwnSaga(s: Store, j: Job, minted: RelationId): Saga {
    if JobLink(j) in s.sagas then s.sagas[JobLink(j)].value else NewSaga(j, minted)
  }

  predicate PairRelated(s: Store, j: Job) { (LowOf(j.owner, j.redeemer), HighOf(j.owner, j.redeemer)) in s.relations }

  /** The pair is related and there is nothing to resume. */
  predicate NothingToDo(s: Store, j: Job) {
    PairRelated(s, j) && (JobLink(j) in s.sagas ==> s.sagas[JobLink(j)].value.status == Completed)
  }

  /** The answer of an undisturbed call, from the tables it finds. */
  function RedeemAnswer(s: Store, j: Job, minted: RelationId): Outcome {
    var g := OwnSaga(s, j, minted);
    if PairRelated(s, j) then
      if !NothingToDo(s, j) && Turns(s, g) then Linked(g.relation, false)
      else Linked(s.relations[(LowOf(j.owner, j.redeemer), HighOf(j.owner, j.redeemer))], false)
    else if Turns(s, g) then LimitReached
    else Linked(g.relation, g.status != Completed)
  }

  /** How its saga ends. */
  predicate RedeemDone(s: Store, t: Store, j: Job, pick: Pick) {
    if NothingToDo(s, j) then t == s
    else
      var was := OwnSaga(s, j, pick.relation).status;
      && JobLink(j) in t.sagas
      && var g := t.sagas[JobLink(j)].value;
         if Turns(s, OwnSaga(s, j, pick.relation)) then
           && g.status == Aborted
           && (was != Aborted ==>
                 && !Reserves(ListOf(t, g.low).reservations, JobLink(j))
                 && !Reserves(ListOf(t, g.high).reservations, JobLink(j)))
         else if !pick.accepts then g.status == TaskCrediting && g.lastError == TaskCreditFailed
         else
           && (g.status == Completed
               || (g.status == RewardMailsCreated && !j.mailer && (was == RewardMailsCreated || was == FirstRewardChecked)))
           && (j.mailer && was != Completed ==> Rewarded(t, g))
           && (g.status == Completed ==> g.lastError == NoError)
  }

  /** Two players with distinct IDs and known names. If the collaborators do not accept, the
      saga has not come to them yet. */
  predicate Ready(w: World, id: nat, j: Job, pick: Pick) {
    && id !in w.drivers && j.code in w.store.owners && j.owner == w.store.owners[j.code]
    && j.owner != 0 && j.redeemer != 0 && j.owner != j.redeemer
    && j.owner in w.store.names && w.store.names[j.owner] != "" && j.redeemer in w.store.names && w.store.names[j.redeemer] != ""
    && pick.relation !in w.store.minted
    && (pick.accepts || (JobLink(j) in w.store.sagas ==> !Reached(w.store.sagas[JobLink(j)].value.status, TaskCrediting)))
  }

  /** A result of the call as this purpose reports it. */
  lemma Reports(s: Store, u: World, id: nat, j: Job, g: Saga, p: Purpose, pick: Pick)
    requires g == OwnSaga(s, j, pick.relation) && g.link == JobLink(j) && !NothingToDo(s, j) && StoreOK(u.store)
    requires p == if PairRelated(s, j) then AlreadyFriends else Establish(g.status != Completed)
    requires (g.low, g.high) == (LowOf(j.owner, j.redeemer), HighOf(j.owner, j.redeemer))
    requires if g.status == Aborted then
        u.store.sagas == s.sagas && JobLink(j) in s.sagas && At(u, id, j, Return(g, p))
      else if Turns(s, g) then TurnedBack(u, id, j, p, g.relation)
      else if pick.accepts then WentThrough(u, id, j, p, PairRelation(s, g), g.status)
      else Stops(u, id, j, p, PairRelation(s, g))
    ensures At(u, id, j, Finished(RedeemAnswer(s, j, pick.relation))) && RedeemDone(s, u.store, j, pick)
  {
    hide CanTake, Reserves, StoreOK, Known;
    if JobLink(j) in u.store.sagas { SagaFacts(u.store, JobLink(j)); }
  }

  /** The entry of a call on a related pair: the relation, then its own saga. */
  lemma RelatedAlone(w: World, s: World, id: nat, j: Job, pick: Pick) returns (u: World, l: nat)
    requires Came(s, s, id, pick, 0) && Ready(w, id, j, pick) && s == World(w.store, w.drivers[id := Driver(j, EntryRelation)])
    requires PairRelated(w.store, j)
    ensures l <= 40 && Came(s, u, id, pick, l)
    ensures At(u, id, j, Finished(RedeemAnswer(w.store, j, pick.relation))) && RedeemDone(w.store, u.store, j, pick)
  {
    hide Alone, Came, Turns, RedeemDone, RedeemAnswer, Completes, Stops, WentThrough, TurnedBack, Enter;
    var r := w.store.relations[(LowOf(j.owner, j.redeemer), HighOf(j.owner, j.redeemer))];
    u := GoesTo(s, s, id, pick, 0, j, EntryRelation, s.store, RelationIs(r));
    if JobLink(j) !in w.store.sagas {
      u := GoesTo(s, u, id, pick, 1, j, EntryActiveSaga(r), u.store, NotFound);
      l := 2;
      NoSagaToResume(w.store, u, id, j, pick);
    } else {
      u, l := ResumedAlone(w, s, u, id, j, pick, r);
    }
  }

  lemma NoSagaToResume(s: Store, u: World, id: nat, j: Job, pick: Pick)
    requires NothingToDo(s, j) && u.store == s
    requires At(u, id, j, Finished(Linked(s.relations[(LowOf(j.owner, j.redeemer), HighOf(j.owner, j.redeemer))], false)))
    ensures At(u, id, j, Finished(RedeemAnswer(s, j, pick.relation))) && RedeemDone(s, u.store, j, pick)
  {}

  lemma PairIsTheJobs(t: Store, j: Job)
    requires StoreOK(t) && JobLink(j) in t.sagas && j.code in t.owners && j.owner == t.owners[j.code]
    ensures var g := t.sagas[JobLink(j)].value;
      g.link == JobLink(j) && (g.low, g.high) == (LowOf(j.owner, j.redeemer), HighOf(j.owner, j.redeemer))
  {
    hide StoreOK;
    SagaFacts(t, JobLink(j));
  }

  lemma CameStore(w: World, t: World, id: nat, pick: Pick, k: nat)
    requires Came(w, t, id, pick, k)
    ensures StoreOK(t.store)
  {}

  lemma ResumedAlone(w: World, s: World, t: World, id: nat, j: Job, pick: Pick, r: RelationId) returns (u: World, l: nat)
    requires Came(s, t, id, pick, 1) && At(t, id, j, EntryActiveSaga(r)) && t.store == w.store && Ready(w, id, j, pick)
    requires PairRelated(w.store, j) && r == w.store.relations[(LowOf(j.owner, j.redeemer), HighOf(j.owner, j.redeemer))]
    requires JobLink(j) in w.store.sagas
    ensures l <= 40 && Came(s, u, id, pick, l)
    ensures At(u, id, j, Finished(RedeemAnswer(w.store, j, pick.relation))) && RedeemDone(w.store, u.store, j, pick)
  {
    hide Alone, Came, Turns, RedeemDone, RedeemAnswer, Completes, Stops, WentThrough, TurnedBack, Enter, StoreOK;
    CameStore(s, t, id, pick, 1);
    PairIsTheJobs(t.store, j);
    var row := w.store.sagas[JobLink(j)];
    u := GoesTo(s, t, id, pick, 1, j, EntryActiveSaga(r), t.store, SagaIs(row.value, row.version));
    l := 2;
    if row.value.status == Completed {
      NoSagaToResume(w.store, u, id, j, pick);
    } else {
      u, l := FromTop(s, u, id, pick, 2, j, row.value, 0, AlreadyFriends);
      CameStore(s, u, id, pick, l);
      Reports(w.store, u, id, j, row.value, AlreadyFriends, pick);
    }
  }

  /** The entry of a call on a pair that is not related. */
  lemma UnrelatedAlone(w: World, s: World, id: nat, j: Job, pick: Pick) returns (u: World, l: nat)
    requires Came(s, s, id, pick, 0) && Ready(w, id, j, pick) && s == World(w.store, w.drivers[id := Driver(j, EntryRelation)])
    requires !PairRelated(w.store, j)
    ensures l <= 40 && Came(s, u, id, pick, l)
    ensures At(u, id, j, Finished(RedeemAnswer(w.store, j, pick.relation))) && RedeemDone(w.store, u.store, j, pick)
  {
    hide Alone, Came, Turns, RedeemDone, RedeemAnswer, Completes, Stops, WentThrough, TurnedBack, Enter, StoreOK;
    u := GoesTo(s, s, id, pick, 0, j, EntryRelation, s.store, NotFound);
    if JobLink(j) in w.store.sagas {
      CameStore(s, s, id, pick, 0);
      PairIsTheJobs(s.store, j);
      var row := w.store.sagas[JobLink(j)];
      u := GoesTo(s, u, id, pick, 1, j, EntrySaga, u.store, SagaIs(row.value, row.version));
      var p := Establish(row.value.status != Completed);
      u, l := FromTop(s, u, id, pick, 2, j, row.value, 0, p);
      CameStore(s, u, id, pick, l);
      Reports(w.store, u, id, j, row.value, p, pick);
    } else {
      u, l := NewSagaAlone(w, s, u, id, j, pick);
    }
  }

  lemma NewSagaAlone(w: World, s: World, t: World, id: nat, j: Job, pick: Pick) returns (u: World, l: nat)
    requires Came(s, t, id, pick, 1) && At(t, id, j, EntrySaga) && t.store == w.store && Ready(w, id, j, pick)
    requires !PairRelated(w.store, j) && JobLink(j) !in w.store.sagas
    ensures l <= 40 && Came(s, u, id, pick, l)
    ensures At(u, id, j, Finished(RedeemAnswer(w.store, j, pick.relation))) && RedeemDone(w.store, u.store, j, pick)
  {
    hide Alone, Came, RedeemDone, RedeemAnswer, Completes, Stops, WentThrough, TurnedBack, Enter, StoreOK, PlanReserve;
    var g := NewSaga(j, pick.relation);
    u := GoesTo(s, t, id, pick, 1, j, EntrySaga, t.store, NotFound);
    u := GoesTo(s, u, id, pick, 2, j, EntryMint, u.store.(minted := u.store.minted[pick.relation := JobLink(j)]), Minted(pick.relation));
    u := GoesTo(s, u, id, pick, 3, j, EntryInsert(g), u.store.(sagas := u.store.sagas[JobLink(j) := Row(g, 1)]), Done(1));
    var v := u;
    u, l := FromTop(s, v, id, pick, 4, j, g, 0, Establish(true));
    SameLists(w.store, v.store, g);
    CameStore(s, u, id, pick, l);
    Reports(w.store, u, id, j, g, Establish(true), pick);
  }

  lemma SameLists(s: Store, t: Store, g: Saga)
    requires t.lists == s.lists && t.relations == s.relations
    ensures Turns(s, g) <==> Turns(t, g)
    ensures PairRelation(s, g) == PairRelation(t, g)
  {}

  /** What redeeming a code does from every reachable state when nobody disturbs it, in at
      most forty calls: the players are linked, credited and rewarded, unless one of them
      has no room, which ends the saga with no slot held; and the caller is told which.
      Only on a related pair whose own saga turned back is the answer that saga's ID. If
      the credits are not accepted the answer is the same, and the saga waits for them. */
  lemma RedeemAlone(owners: map<string, PlayerId>, es: seq<Event>, id: nat, redeemer: PlayerId, code: string, mailer: bool, pick: Pick, m: nat)
    requires code in owners && m >= 40
    requires Ready(RunAll(Empty(owners), es), id, Job(owners[code], redeemer, code, mailer), pick)
    ensures var w := RunAll(Empty(owners), es);
      var j := Job(owners[code], redeemer, code, mailer);
      var t := Alone(Step(w, Redeem(id, redeemer, code, mailer)), id, pick, m);
      At(t, id, j, Finished(RedeemAnswer(w.store, j, pick.relation))) && RedeemDone(w.store, t.store, j, pick)
  {
    hide RunAll, Alone, Turns, RedeemDone, RedeemAnswer, Inv, Step;
    RunKeeps(owners, es);
    OwnersFixed(owners, es);
    var w := RunAll(Empty(owners), es);
    var j := Job(owners[code], redeemer, code, mailer);
    var s := Step(w, Redeem(id, redeemer, code, mailer));
    StepKeeps(w, Redeem(id, redeemer, code, mailer));
    Started(w, id, j, pick);
    Begins(s, id, pick);
    var u, l;
    if PairRelated(w.store, j) { u, l := RelatedAlone(w, s, id, j, pick); } else { u, l := UnrelatedAlone(w, s, id, j, pick); }
    AloneOn(s, id, pick, l, m - l);
    AloneRests(u, id, pick, m - l);
  }

  lemma Started(w: World, id: nat, j: Job, pick: Pick)
    requires Ready(w, id, j, pick)
    ensures Step(w, Redeem(id, j.redeemer, j.code, j.mailer)) == World(w.store, w.drivers[id := Driver(j, EntryRelation)])
  {}

  lemma Begins(s: World, id: nat, pick: Pick)
    requires Inv(s)
    ensures Came(s, s, id, pick, 0)
  {}
}
