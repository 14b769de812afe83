/** Under which name a friend is listed. The name is read before the list is edited, and
    an account keeps its name, so every entry carries its friend's own. */
module FriendLinkNames {
  import opened Common
  import opened FriendLists
  import opened FriendLinkDriver
  import opened FriendLinkWorld
  import opened FriendLinkTheorems

  predicate RightlyNamed(s: Store, l: FriendList) {
    forall i :: 0 <= i < |l.entries| ==>
      l.entries[i].friend in s.names && l.entries[i].name == s.names[l.entries[i].friend] && l.entries[i].name != ""
  }

  /** A driver that projects one side knows the other side's name. */
  predicate KnowsName(s: Store, run: Run) {
    run.Advancing? && run.at.Listing? && (run.at.edit == ConsumeLow || run.at.edit == ConsumeHigh) ==>
      var friend := if run.at.edit == ConsumeLow then run.saga.high else run.saga.low;
      friend in s.names && run.at.name == s.names[friend] && run.at.name != ""
  }

  predicate Named(w: World) {
    && (forall p :: p in w.store.lists ==> RightlyNamed(w.store, w.store.lists[p].value))
    && (forall id :: id in w.drivers ==> KnowsName(w.store, w.drivers[id].run))
  }

  predicate NamesStay(s: Store, t: Store) {
    forall p :: p in s.names ==> p in t.names && t.names[p] == s.names[p]
  }

  lemma NamesLater(s: Store, t: Store, l: FriendList, run: Run)
    requires NamesStay(s, t)
    ensures RightlyNamed(s, l) ==> RightlyNamed(t, l)
    ensures KnowsName(s, run) ==> KnowsName(t, run)
  {}

  /** What an edit writes is rightly named. */
  lemma PlannedNames(s: Store, g: Saga, e: Edit, name: string, l: FriendList)
    requires PlanFor(g, e, name, l).Write? && RightlyNamed(s, l)
    requires e == ConsumeLow ==> g.high in s.names && name == s.names[g.high] && name != ""
    requires e == ConsumeHigh ==> g.low in s.names && name == s.names[g.low] && name != ""
    ensures RightlyNamed(s, PlanFor(g, e, name, l).list)
  {
    hide Without, Reserves, HasFriend, HasRelation;
  }

  /** Only a list write that lands changes a list that is there. */
  lemma OtherCalls(s: Store, c: Call, pick: Pick)
    requires forall p :: p in s.lists ==> RightlyNamed(s, s.lists[p].value)
    requires c.UpdateList? && c.player in s.lists && s.lists[c.player].version == c.version ==> RightlyNamed(s, c.list)
    ensures var t := Apply(s, c, pick).0; t.names == s.names && forall p :: p in t.lists ==> RightlyNamed(s, t.lists[p].value)
  {
    hide RightlyNamed;
    assert RightlyNamed(s, EMPTY_LIST) by { EmptyIsRight(s); }
  }

  lemma EmptyIsRight(s: Store)
    ensures RightlyNamed(s, EMPTY_LIST)
  {}

  lemma WritesNames(w: World, d: Driver, pick: Pick)
    requires Named(w) && DriverOK(w.store, d) && KnowsName(w.store, d.run)
    ensures var t := Apply(w.store, CallOf(d), pick).0;
      t.names == w.store.names && forall p :: p in t.lists ==> RightlyNamed(w.store, t.lists[p].value)
  {
    hide Stable, Lineage, Known, PlanFor, Apply, Slots, RightlyNamed;
    var c := CallOf(d);
    if c.UpdateList? && c.player in w.store.lists && w.store.lists[c.player].version == c.version {
      var (g, at) := (d.run.saga, d.run.at);
      assert ListLineage(w.store, c.player, at.phase.list, at.phase.listVersion);
      PlannedNames(w.store, g, at.edit, at.name, at.phase.list);
    }
    OtherCalls(w.store, c, pick);
  }

  /** The driver is not editing a list for a projection. */
  predicate Plain(run: Run) {
    run.Advancing? && run.at.Listing? ==> run.at.edit != ConsumeLow && run.at.edit != ConsumeHigh
  }

  lemma PlainOnes(j: Job, g: Saga, v: nat, n: nat, p: Purpose, low: bool, side: MailSide)
    ensures Plain(Enter(j, g, v, n, p)) && Plain(CreditFrom(j, g, v, n, p, low)) && Plain(AfterCredits(j, g, v, n, p))
    ensures Plain(MailFrom(g, v, n, p, side)) && Plain(Return(g, p))
  {}

  lemma SettlesPlain(g: Saga, v: nat, n: nat, p: Purpose, e: Edit, ok: bool)
    ensures Plain(SettleEdit(g, v, n, p, e, ok)) && Plain(FailEdit(g, v, n, p, e))
  {}

  lemma ListKnows(
    s: Store, g: Saga, v: nat, n: nat, p: Purpose, e: Edit, name: string, k: nat, phase: ListPhase, r: Reply)
    requires KnowsName(s, Advancing(Listing(e, name, k, phase), g, v, n, p))
    ensures KnowsName(s, FeedList(g, v, n, p, e, name, k, phase, r))
  {
    hide PlanFor, SettleEdit, FailEdit;
    SettlesPlain(g, v, n, p, e, true);
    SettlesPlain(g, v, n, p, e, false);
  }

  lemma WriteKnows(s: Store, j: Job, v: nat, n: nat, p: Purpose, next: Saga, after: After, r: Reply)
    ensures Plain(FeedSagaWrite(j, v, n, p, next, after, r))
  {
    hide Enter, CreditFrom, MailFrom, AfterCredits, Return, Plain;
    PlainOnes(j, next, if r.Done? then r.version else v, n, p, false, ToInvitee);
    PlainOnes(j, next, if r.Done? then r.version else v, n + 1, p, false, ToInvitee);
    assert Plain(Fail(SagaFailed)) && Plain(WriteSaga(next, if r.Done? then r.version else v, n, p, next.(status := Completed), NextStep)) by {
      PlainWrites(next, if r.Done? then r.version else v, n, p);
    }
  }

  lemma PlainWrites(g: Saga, v: nat, n: nat, p: Purpose)
    ensures Plain(Fail(SagaFailed)) && Plain(WriteSaga(g, v, n, p, g.(status := Completed), NextStep))
  {}

  lemma AdvanceKnows(s: Store, j: Job, at: At, g: Saga, v: nat, n: nat, p: Purpose, r: Reply)
    requires KnowsName(s, Advancing(at, g, v, n, p))
    requires at.NameRead? && (at.edit == ConsumeLow || at.edit == ConsumeHigh) && r.NameIs? ==>
      Other(g, at.edit) in s.names && s.names[Other(g, at.edit)] == r.name
    ensures KnowsName(s, FeedAdvance(j, at, g, v, n, p, r))
  {
    hide FeedList, FeedSagaWrite;
    match at
    case Listing(e, name, k, phase) => ListKnows(s, g, v, n, p, e, name, k, phase, r);
    case SagaWrite(next, after) => WriteKnows(s, j, v, n, p, next, after, r);
    case _ =>
  }

  /** The reply to the name lookup is the name. */
  lemma LearnsName(s: Store, d: Driver, fault: Fault, pick: Pick)
    requires KnowsName(s, d.run)
    ensures KnowsName(s, Feed(d, Perform(s, CallOf(d), fault, pick).1).run)
  {
    var r := Perform(s, CallOf(d), fault, pick).1;
    hide Apply, FeedAdvance, KnowsName, Enter;
    match d.run
    case Advancing(at, g, v, n, p) =>
      if at.NameRead? { NameReply(s, CallOf(d), fault, pick); }
      AdvanceKnows(s, d.job, at, g, v, n, p, r);
    case _ => EntryKnows(s, d, r);
  }

  lemma NameReply(s: Store, c: Call, fault: Fault, pick: Pick)
    requires c.AccountName?
    ensures var r := Perform(s, c, fault, pick).1; r.NameIs? ==> c.player in s.names && s.names[c.player] == r.name
  {}

  lemma EntryKnows(s: Store, d: Driver, r: Reply)
    requires !d.run.Advancing?
    ensures KnowsName(s, Feed(d, r).run)
  {
    hide Enter;
    if r.SagaIs? {
      PlainOnes(d.job, r.saga, r.version, 0, AlreadyFriends, true, ToInviter);
      PlainOnes(d.job, r.saga, r.version, 0, Establish(r.saga.status != Completed), true, ToInviter);
      PlainOnes(d.job, r.saga, r.version, 0, Reconcile, true, ToInviter);
    }
    if d.run.EntryInsert? && r.Done? { PlainOnes(d.job, d.run.draft, r.version, 0, Establish(true), true, ToInviter); }
  }

  lemma ActNames(w: World, e: Event)
    requires Inv(w) && Named(w) && e.Act? && e.id in w.drivers
    ensures Named(Step(w, e))
  {
    hide StoreOK, DriverOK, RightlyNamed, KnowsName, Apply, CallOf, Feed;
    var d := w.drivers[e.id];
    assert DriverOK(w.store, d);
    WritesNames(w, d, e.pick);
    LearnsName(w.store, d, e.fault, e.pick);
    var t := Perform(w.store, CallOf(d), e.fault, e.pick).0;
    forall p | p in t.lists ensures RightlyNamed(t, t.lists[p].value) { NamesLater(w.store, t, t.lists[p].value, d.run); }
    forall i | i in w.drivers ensures KnowsName(t, w.drivers[i].run) { NamesLater(w.store, t, EMPTY_LIST, w.drivers[i].run); }
    NamesLater(w.store, t, EMPTY_LIST, Step(w, e).drivers[e.id].run);
  }

  lemma StepNames(w: World, e: Event)
    requires Inv(w) && Named(w)
    ensures Named(Step(w, e))
  {
    hide Inv, RightlyNamed;
    match e
    case Act(id, _, _) => if id in w.drivers { ActNames(w, e); }
    case Activate(_, _) =>
      var t := Step(w, e).store;
      forall p | p in t.lists ensures RightlyNamed(t, t.lists[p].value) {
        NamesLater(w.store, t, t.lists[p].value, Finished(Reconciled));
      }
      forall i | i in w.drivers ensures KnowsName(t, w.drivers[i].run) {
        NamesLater(w.store, t, EMPTY_LIST, w.drivers[i].run);
      }
    case _ =>
  }

  lemma {:induction false} RunNames(owners: map<string, PlayerId>, es: seq<Event>)
    ensures Named(RunAll(Empty(owners), es))
  {
    hide Inv, Step, Named;
    if es == [] {
      EmptyNamed(owners);
    } else {
      RunNames(owners, es[..|es| - 1]);
      RunKeeps(owners, es[..|es| - 1]);
      StepNames(RunAll(Empty(owners), es[..|es| - 1]), es[|es| - 1]);
    }
  }

  lemma EmptyNamed(owners: map<string, PlayerId>)
    ensures Named(Empty(owners))
  {}

  /** Over every run each entry of each list carries its friend's own account name, which
      is not empty. */
  lemma EntriesCarryTheFriendsName(owners: map<string, PlayerId>, es: seq<Event>, p: PlayerId, i: nat)
    requires var s := RunAll(Empty(owners), es).store; p in s.lists && i < |s.lists[p].value.entries|
    ensures var s := RunAll(Empty(owners), es).store;
      var e := s.lists[p].value.entries[i];
      e.friend in s.names && e.name == s.names[e.friend] && e.name != ""
  {
    RunNames(owners, es);
    hide RunAll;
    assert RightlyNamed(RunAll(Empty(owners), es).store, RunAll(Empty(owners), es).store.lists[p].value);
  }
}
