/** What holds in every world the link-saga drivers can reach, and along every run. */
module FriendLinkTheorems {
  import opened Common
  import opened FriendLists
  import opened FriendLinkDriver
  import opened FriendLinkWorld
  import opened FriendLinkSafety

  lemma ActKeeps(w: World, id: nat, fault: Fault, pick: Pick)
    requires Inv(w) && id in w.drivers
    ensures Inv(Step(w, Act(id, fault, pick))) && Later(w.store, Step(w, Act(id, fault, pick)).store)
  {
    hide StoreOK, Later, DriverOK, Truth, CallOf, Feed, Apply;
    var d := w.drivers[id];
    var c := CallOf(d);
    var (t, r) := Perform(w.store, c, fault, pick);
    assert Good(w.store, t) by {
      if fault == Refuse { Same(w.store); } else { DriverApplies(w.store, d, pick); }
    }
    ApplyTrue(w.store, c, fault, pick);
    forall i | i in w.drivers ensures DriverOK(t, w.drivers[i]) {
      DriverLater(w.store, t, w.drivers[i]);
    }
    FeedOK(t, d, r);
  }

  /** An account that becomes active changes no table of the saga. */
  lemma ActivateKeeps(w: World, player: PlayerId, name: string)
    requires Inv(w)
    ensures var t := w.store.(names := w.store.names[player := name]); Inv(w.(store := t)) && Later(w.store, t)
  {
    hide DriverOK;
    var t := w.store.(names := w.store.names[player := name]);
    LaterLedger(w.store, t);
    hide Later;
    Assemble(w.store, t);
    hide StoreOK;
    forall i | i in w.drivers ensures DriverOK(t, w.drivers[i]) {
      DriverLater(w.store, t, w.drivers[i]);
    }
  }

  lemma StepKeeps(w: World, e: Event)
    requires Inv(w)
    ensures Inv(Step(w, e)) && Later(w.store, Step(w, e).store)
  {
    match e
    case Act(id, fault, pick) =>
      hide StoreOK, Later, DriverOK;
      Same(w.store);
      if id in w.drivers { ActKeeps(w, id, fault, pick); }
    case Activate(player, name) =>
      hide StoreOK, Later, DriverOK;
      Same(w.store);
      if player !in w.store.names { ActivateKeeps(w, player, name); }
    case Redeem(id, redeemer, code, mailer) =>
      hide StoreOK, Later;
      Same(w.store);
    case Reconciling(id, link, mailer) =>
      hide StoreOK, Later;
      Same(w.store);
  }

  lemma {:induction false} RunKeeps(owners: map<string, PlayerId>, es: seq<Event>)
    ensures Inv(RunAll(Empty(owners), es))
  {
    hide StoreOK, DriverOK, Step;
    if es == [] {
      EmptyOK(owners);
    } else {
      RunKeeps(owners, es[..|es| - 1]);
      StepKeeps(RunAll(Empty(owners), es[..|es| - 1]), es[|es| - 1]);
    }
  }

  lemma EmptyOK(owners: map<string, PlayerId>)
    ensures Inv(Empty(owners))
  {}

  // ------------------------------------------------------------- along a run

  lemma LaterTrans(s: Store, t: Store, u: Store)
    requires Later(s, t) && Later(t, u)
    ensures Later(s, u)
  {
    hide HeldSide, Reached;
    forall p | p in s.lists ensures p in u.lists && LaterList(s.lists[p], u.lists[p]) {
      assert LaterList(s.lists[p], t.lists[p]) && LaterList(t.lists[p], u.lists[p]);
    }
    forall link | link in s.sagas ensures link in u.sagas && LaterSaga(s.sagas[link], u.sagas[link]) {
      SagaChain(s.sagas[link], t.sagas[link], u.sagas[link]);
    }
    forall link, low | link in s.sagas && Known(s, link) && HeldSide(s, link, low)
      && u.sagas[link].value.status != Releasing && u.sagas[link].value.status != Aborted
      ensures HeldSide(u, link, low)
    {
      assert LaterSaga(t.sagas[link], u.sagas[link]);
      assert HeldSide(t, link, low);
    }
  }

  /** Whatever the drivers go on to do, the durable record only moves forward: list
      entries, relations, first-friend rows and sent mails are never withdrawn, and a
      saga's status follows its path. */
  lemma {:induction false} RunsMoveForward(owners: map<string, PlayerId>, before: seq<Event>, more: seq<Event>)
    ensures Later(RunAll(Empty(owners), before).store, RunAll(Empty(owners), before + more).store)
  {
    hide StoreOK, DriverOK, Step, Later;
    var w := RunAll(Empty(owners), before);
    RunKeeps(owners, before);
    if more == [] {
      assert before + more == before;
      Same(w.store);
    } else {
      var front := more[..|more| - 1];
      RunsMoveForward(owners, before, front);
      RunKeeps(owners, before + front);
      assert (before + more)[..|before + more| - 1] == before + front;
      StepKeeps(RunAll(Empty(owners), before + front), more[|more| - 1]);
      LaterTrans(w.store, RunAll(Empty(owners), before + front).store, RunAll(Empty(owners), before + more).store);
    }
  }

  // --------------------------------------------------------------- main results

  /** Counters, distinctness and the hundred-friend cap hold of every list, always. */
  lemma ListsAreWellCounted(owners: map<string, PlayerId>, es: seq<Event>, p: PlayerId)
    requires p in RunAll(Empty(owners), es).store.lists
    ensures var l := RunAll(Empty(owners), es).store.lists[p].value;
      && l.activeCount == |l.entries|
      && l.reservedCount == |l.reservations|
      && l.activeCount + l.reservedCount <= 100
      && (forall i, j :: 0 <= i < j < |l.reservations| ==> l.reservations[i].link != l.reservations[j].link)
      && (forall i, j :: 0 <= i < j < |l.entries| ==> l.entries[i].friend != l.entries[j].friend)
  {
    hide DriverOK, Step;
    RunKeeps(owners, es);
    assert ListOK(RunAll(Empty(owners), es).store, p);
  }

  /** `p` lists `friend` exactly once, under this relation, and the relation nowhere else. */
  predicate ListedOnce(s: Store, p: PlayerId, friend: PlayerId, relation: RelationId) {
    p in s.lists
    && var es := s.lists[p].value.entries;
    exists i :: 0 <= i < |es| && es[i].friend == friend && es[i].relation == relation
      && forall j :: 0 <= j < |es| && (es[j].friend == friend || es[j].relation == relation) ==> j == i
  }

  /** Friendship is mutual. A saga at or past PROJECTIONS_APPLIED has its relation, and
      each side lists the other exactly once under it, even when sagas of other codes
      raced for the same pair. */
  lemma FriendshipIsMutual(owners: map<string, PlayerId>, es: seq<Event>, link: Link)
    requires link in RunAll(Empty(owners), es).store.sagas
    requires Reached(RunAll(Empty(owners), es).store.sagas[link].value.status, ProjectionsApplied)
    ensures var s := RunAll(Empty(owners), es).store;
      var g := s.sagas[link].value;
      && link.code in owners && g.low < g.high && {g.low, g.high} == {owners[link.code], link.redeemer}
      && Related(s, g.low, g.high, g.relation)
      && ListedOnce(s, g.low, g.high, g.relation)
      && ListedOnce(s, g.high, g.low, g.relation)
  {
    RunKeeps(owners, es);
    OwnersFixed(owners, es);
    SagaMeansFriends(RunAll(Empty(owners), es).store, link);
  }

  lemma SagaMeansFriends(s: Store, link: Link)
    requires StoreOK(s) && link in s.sagas && Reached(s.sagas[link].value.status, ProjectionsApplied)
    ensures var g := s.sagas[link].value;
      && g.low < g.high && Known(s, link) && {g.low, g.high} == {s.owners[link.code], link.redeemer}
      && Related(s, g.low, g.high, g.relation)
      && ListedOnce(s, g.low, g.high, g.relation) && ListedOnce(s, g.high, g.low, g.relation)
  {
    hide StoreOK, HeldSide, CreditFacts, RewardFacts;
    SagaRow(s, link);
    var g := s.sagas[link].value;
    OnlyOnce(s, g.low, g.high, g.relation);
    OnlyOnce(s, g.high, g.low, g.relation);
  }

  lemma OnlyOnce(s: Store, p: PlayerId, friend: PlayerId, relation: RelationId)
    requires StoreOK(s) && p != friend && Related(s, LowOf(p, friend), HighOf(p, friend), relation)
    requires Listed(s, p, friend, relation)
    ensures ListedOnce(s, p, friend, relation)
  {
    hide SagaOK, CreditOK, RewardOK, MailOK;
    assert ListOK(s, p);
    var es := s.lists[p].value.entries;
    var i :| 0 <= i < |es| && es[i].friend == friend && es[i].relation == relation;
    forall j | 0 <= j < |es| && (es[j].friend == friend || es[j].relation == relation) ensures j == i {
      assert Backed(s, p, es[j]);
      assert RelationOK(s, (LowOf(p, es[j].friend), HighOf(p, es[j].friend)));
      assert RelationOK(s, (LowOf(p, friend), HighOf(p, friend)));
      assert es[j].friend == friend;
    }
  }

  /** Conversely every list entry is backed by the active relation of the two players,
      under its ID, and that relation was created by a durable saga between them. */
  lemma EntriesAreBacked(owners: map<string, PlayerId>, es: seq<Event>, p: PlayerId, i: nat)
    requires p in RunAll(Empty(owners), es).store.lists
    requires i < |RunAll(Empty(owners), es).store.lists[p].value.entries|
    ensures var s := RunAll(Empty(owners), es).store;
      var e := s.lists[p].value.entries[i];
      && e.friend != p
      && Related(s, LowOf(p, e.friend), HighOf(p, e.friend), e.relation)
      && exists link :: link in s.sagas && Reached(s.sagas[link].value.status, BothReserved)
           && Known(s, link) && {s.owners[link.code], link.redeemer} == {p, e.friend}
  {
    hide DriverOK, Step;
    RunKeeps(owners, es);
    var s := RunAll(Empty(owners), es).store;
    var e := s.lists[p].value.entries[i];
    assert ListOK(s, p) && Backed(s, p, e);
    RelationOrigin(s, LowOf(p, e.friend), HighOf(p, e.friend), e.relation);
    var link := s.minted[e.relation];
    assert link in s.sagas;
  }

  lemma OwnersFixed(owners: map<string, PlayerId>, es: seq<Event>)
    ensures RunAll(Empty(owners), es).store.owners == owners
  {
    hide Step;
    RunsMoveForward(owners, [], es);
    assert [] + es == es;
  }

  /** Over a whole run at most one saga per invitee ever carries the first-friend
      claim: two claimed sagas of one redeemer, at any two moments, are one saga. */
  lemma OneClaimPerInvitee(
    owners: map<string, PlayerId>, before: seq<Event>, more: seq<Event>, a: Link, b: Link)
    requires var s := RunAll(Empty(owners), before).store; a in s.sagas && s.sagas[a].value.claimed
    requires var t := RunAll(Empty(owners), before + more).store; b in t.sagas && t.sagas[b].value.claimed
    requires a.redeemer == b.redeemer
    ensures a == b
  {
    hide DriverOK, Step, HeldSide, StoreOK;
    RunKeeps(owners, before);
    RunKeeps(owners, before + more);
    RunsMoveForward(owners, before, more);
    SagaRow(RunAll(Empty(owners), before).store, a);
    SagaRow(RunAll(Empty(owners), before + more).store, b);
  }

  /** Reward mails are only requested for an invitee whose row is claimed and whose
      durable saga of that code carries the claim, and the same source ID is never
      requested for two recipients. */
  lemma RewardMailsFollowTheClaim(
    owners: map<string, PlayerId>, before: seq<Event>, more: seq<Event>, m: Mail, n: Mail)
    requires m in RunAll(Empty(owners), before).store.mails
    requires n in RunAll(Empty(owners), before + more).store.mails
    ensures m.source == n.source ==> m == n
    ensures var s := RunAll(Empty(owners), before).store;
      m.source.invitee in s.rewards && ClaimedBy(s, m.source.invitee)
      && m.recipient == (if m.source.side == ToInviter
                         then s.rewards[m.source.invitee].inviter else m.source.invitee)
  {
    hide DriverOK, Step, HeldSide;
    RunKeeps(owners, before);
    RunKeeps(owners, before + more);
    RunsMoveForward(owners, before, more);
    assert MailOK(RunAll(Empty(owners), before).store, m);
    assert MailOK(RunAll(Empty(owners), before + more).store, n);
  }

  /** What a durable COMPLETED saga has behind it: both task credits of its active
      relation, and both reward mails if it holds the claim. */
  lemma CompletedMeansDelivered(owners: map<string, PlayerId>, es: seq<Event>, link: Link)
    requires link in RunAll(Empty(owners), es).store.sagas
    requires RunAll(Empty(owners), es).store.sagas[link].value.status == Completed
    ensures var s := RunAll(Empty(owners), es).store;
      var g := s.sagas[link].value;
      && link.code in owners
      && (g.low, g.relation) in s.credits && (g.high, g.relation) in s.credits
      && (g.claimed ==>
            && Mail(SourceId(link.redeemer, ToInviter), owners[link.code]) in s.mails
            && Mail(SourceId(link.redeemer, ToInvitee), link.redeemer) in s.mails)
  {
    hide DriverOK, Step, HeldSide, StoreOK;
    RunKeeps(owners, es);
    OwnersFixed(owners, es);
    SagaRow(RunAll(Empty(owners), es).store, link);
  }

  /** What EstablishFriendship answers. A new link is listed on both sides. Any answer
      is the active relation of the pair, or the ID of this code's own aborted saga. */
  lemma AnswersAreTheRelation(owners: map<string, PlayerId>, es: seq<Event>, id: nat)
    requires var w := RunAll(Empty(owners), es);
      id in w.drivers && w.drivers[id].run.Finished? && w.drivers[id].run.outcome.Linked?
    ensures var w := RunAll(Empty(owners), es);
      var s := w.store;
      var j := w.drivers[id].job;
      var o := w.drivers[id].run.outcome;
      var (l, h) := (LowOf(j.owner, j.redeemer), HighOf(j.owner, j.redeemer));
      && (o.newly ==> Listed(s, l, h, o.relation) && Listed(s, h, l, o.relation))
      && (Related(s, l, h, o.relation)
          <==> !(JobLink(j) in s.sagas && s.sagas[JobLink(j)].value.status == Aborted
                 && s.sagas[JobLink(j)].value.relation == o.relation))
  {
    hide Step, HeldSide, StoreOK;
    RunKeeps(owners, es);
    var w := RunAll(Empty(owners), es);
    var s, j, o := w.store, w.drivers[id].job, w.drivers[id].run.outcome;
    assert DriverOK(s, w.drivers[id]);
    var (l, h) := PairOf(s, JobLink(j));
    if JobLink(j) in s.sagas && s.sagas[JobLink(j)].value.status == Aborted {
      SagaRow(s, JobLink(j));
      if Related(s, l, h, o.relation) && s.sagas[JobLink(j)].value.relation == o.relation {
        RelationOrigin(s, l, h, o.relation);
        assert false;
      }
    }
  }
}
