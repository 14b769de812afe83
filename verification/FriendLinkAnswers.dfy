/** Which relation EstablishFriendship answers with, decided by what the call read when
    it entered. */
module FriendLinkAnswers {
  import opened Common
  import opened FriendLists
  import opened FriendLinkDriver
  import opened FriendLinkWorld
  import opened FriendLinkSafety
  import opened FriendLinkTheorems

  predicate Back(st: Status) { st == Releasing || st == Aborted }

  predicate Ours(s: Store, j: Job, relation: RelationId) {
    Related(s, LowOf(j.owner, j.redeemer), HighOf(j.owner, j.redeemer), relation)
  }

  /** The driver is on its way to the pair's relation, or has answered with it. Until it
      has the relation, its saga copy carries the ID it was created with. */
  predicate Bright(s: Store, j: Job, own: RelationId, run: Run) {
    match run
    case Advancing(at, g, _, _, p) =>
      p.Establish? || (p.AlreadyFriends? && OnWay(g, own) && (at.SagaWrite? ==> OnWay(at.next, own)))
    case Finished(o) => o.Linked? ==> Ours(s, j, o.relation)
    case EntryReconcile => false
    case EntryActiveSaga(_) => false
    case EntryRelation => false
    case _ => true
  }

  predicate OnWay(g: Saga, own: RelationId) {
    Forward(g.status) && (!Reached(g.status, RelationActive) ==> g.relation == own)
  }

  /** The driver is turning back, or has answered with its own aborted saga's ID. */
  predicate Dark(s: Store, j: Job, own: RelationId, run: Run) {
    match run
    case Advancing(at, g, _, _, p) =>
      && p.AlreadyFriends? && g.relation == own
      && (if at.SagaWrite? then Back(at.next.status) && at.next.relation == own else Back(g.status))
    case Finished(o) => o.Linked? ==> o.relation == own && OwnAborted(s, j, own)
    case _ => false
  }

  predicate OwnAborted(s: Store, j: Job, own: RelationId) {
    JobLink(j) in s.sagas && s.sagas[JobLink(j)].value.status == Aborted && s.sagas[JobLink(j)].value.relation == own
  }

  /** There is no room for the link: neither a slot nor the friend is there already. */
  predicate FullFor(l: FriendList, link: Link, friend: PlayerId) {
    !HasFriend(l, friend) && !Reserves(l.reservations, link) && l.activeCount + l.reservedCount >= 100
  }

  predicate IsReserve(e: Edit) { e == ReserveLow || e == ReserveHigh }

  /** The reply refuses, at the cap, a driver that found the pair related on entry. */
  predicate CapReply(d: Driver, r: Reply) {
    && d.run.Advancing? && d.run.purpose.AlreadyFriends? && d.run.at.Listing? && IsReserve(d.run.at.edit) && r.ListIs?
    && (d.run.at.phase.Read? || d.run.at.phase.Reread?)
    && FullFor(r.list, d.run.saga.link, Other(d.run.saga, d.run.at.edit))
  }

  // ------------------------------------------------------------- one reply

  lemma ReturnBright(t: Store, j: Job, own: RelationId, g: Saga, p: Purpose)
    requires Stable(t, g) && g.link == JobLink(j) && JobOK(t, j) && (p.Establish? || p.AlreadyFriends?)
    requires Reached(g.status, RelationActive) || (p.Establish? && g.status == Aborted)
    ensures Bright(t, j, own, Return(g, p))
  {
    hide CreditFacts, RewardFacts, Listed;
  }

  lemma EnterBright(t: Store, j: Job, own: RelationId, g: Saga, v: nat, n: nat, p: Purpose)
    requires Stable(t, g) && g.link == JobLink(j) && JobOK(t, j) && (p.Establish? || (p.AlreadyFriends? && OnWay(g, own)))
    ensures Bright(t, j, own, Enter(j, g, v, n, p))
  {
    hide Stable;
    if g.status == Completed || g.status == RewardMailsCreated || (g.status == Aborted && p.Establish?) {
      ReturnBright(t, j, own, g, p);
    }
  }

  lemma WriteBright(t: Store, j: Job, own: RelationId, v: nat, n: nat, p: Purpose, next: Saga, after: After, r: Reply)
    requires Stable(t, next) && next.link == JobLink(j) && JobOK(t, j)
    requires p.Establish? || (p.AlreadyFriends? && OnWay(next, own))
    requires after.NextCredit? ==> next.status == TaskCrediting
    requires after.NextMail? ==> next.status == RewardMailsCreated
    requires after == StopHere || after == StopOrFail ==> Reached(next.status, TaskCrediting)
    ensures Bright(t, j, own, FeedSagaWrite(j, v, n, p, next, after, r))
  {
    hide Stable, Enter, Return;
    if after != NextStep {
      ReturnBright(t, j, own, next, p);
    } else if r.Done? {
      EnterBright(t, j, own, next, r.version, n + 1, p);
    }
  }

  lemma ListBright(
    t: Store, j: Job, own: RelationId, g: Saga, v: nat, n: nat, p: Purpose, e: Edit, name: string, k: nat,
    phase: ListPhase, r: Reply)
    requires EditStatus(e) == g.status && (p.Establish? || (p.AlreadyFriends? && OnWay(g, own)))
    requires !CapReply(Driver(j, Advancing(Listing(e, name, k, phase), g, v, n, p)), r)
    ensures Bright(t, j, own, FeedList(g, v, n, p, e, name, k, phase, r))
  {
    hide HasFriend, Reserves, Ours;
  }

  lemma AdvanceBright(t: Store, d: Driver, own: RelationId, r: Reply)
    requires d.run.Advancing? && DriverOK(t, d) && Bright(t, d.job, own, d.run)
    requires !CapReply(d, r)
    ensures Bright(t, d.job, own, Feed(d, r).run)
  {
    var (at, g, v, n, p) := (d.run.at, d.run.saga, d.run.version, d.run.steps, d.run.purpose);
    hide Stable, CapReply, FeedList, FeedSagaWrite, FeedAdvance, Lineage, Listed, Slots, LaterSaga, ListLineage, Ours;
    AdvanceFeeds(d, r);
    match at
    case Listing(e, name, k, phase) => ListBright(t, d.job, own, g, v, n, p, e, name, k, phase, r);
    case SagaWrite(next, after) => WriteBright(t, d.job, own, v, n, p, next, after, r);
    case _ => OtherBright(t, d.job, own, at, g, v, n, p, r);
  }

  lemma AdvanceFeeds(d: Driver, r: Reply)
    requires d.run.Advancing?
    ensures var (at, g, v, n, p) := (d.run.at, d.run.saga, d.run.version, d.run.steps, d.run.purpose);
      && Feed(d, r).run == FeedAdvance(d.job, at, g, v, n, p, r)
      && (at.Listing? ==> Feed(d, r).run == FeedList(g, v, n, p, at.edit, at.name, at.attempt, at.phase, r))
      && (at.SagaWrite? ==> Feed(d, r).run == FeedSagaWrite(d.job, v, n, p, at.next, at.after, r))
  {
    hide FeedList, FeedSagaWrite;
  }

  lemma OtherBright(t: Store, j: Job, own: RelationId, at: At, g: Saga, v: nat, n: nat, p: Purpose, r: Reply)
    requires !at.Listing? && !at.SagaWrite? && Bright(t, j, own, Advancing(at, g, v, n, p))
    requires at.RelationCreate? || at.RelationRead? ==> g.status == BothReserved
    ensures Bright(t, j, own, FeedAdvance(j, at, g, v, n, p, r))
  {
    hide Ours;
  }

  lemma FeedBright(t: Store, d: Driver, own: RelationId, r: Reply)
    requires StoreOK(t) && DriverOK(t, d) && Truth(t, CallOf(d), r) && Bright(t, d.job, own, d.run)
    requires !CapReply(d, r)
    ensures Bright(t, d.job, own, Feed(d, r).run)
  {
    hide StoreOK, Stable, FeedAdvance, CapReply, Enter, AtOK;
    var j := d.job;
    match d.run
    case Advancing(_, _, _, _, _) => AdvanceBright(t, d, own, r);
    case EntryInsert(g) =>
      if r.Done? { SagaRow(t, g.link); EnterBright(t, j, own, g, r.version, 0, Establish(true)); }
    case EntrySaga =>
      if r.SagaIs? { SagaRow(t, JobLink(j)); EnterBright(t, j, own, r.saga, r.version, 0, Establish(r.saga.status != Completed)); }
    case EntryReload =>
      if r.SagaIs? { SagaRow(t, JobLink(j)); EnterBright(t, j, own, r.saga, r.version, 0, Establish(r.saga.status != Completed)); }
    case _ =>
  }

  /** A refusal at the cap turns the driver back. */
  lemma CapTurnsBack(t: Store, d: Driver, own: RelationId, r: Reply)
    requires DriverOK(t, d) && Bright(t, d.job, own, d.run) && CapReply(d, r)
    ensures Dark(t, d.job, own, Feed(d, r).run)
    ensures d.run.saga.status == Init || d.run.saga.status == LowReserved
  {
    hide HasFriend, Reserves, Stable, Lineage;
  }

  lemma ReleaseDark(
    t: Store, j: Job, own: RelationId, g: Saga, v: nat, n: nat, p: Purpose, e: Edit, name: string, k: nat,
    phase: ListPhase, r: Reply)
    requires EditStatus(e) == g.status && Back(g.status) && g.relation == own && p.AlreadyFriends?
    ensures Dark(t, j, own, FeedList(g, v, n, p, e, name, k, phase, r))
  {
    hide HasFriend, Reserves, OwnAborted;
  }

  lemma WriteDark(t: Store, j: Job, own: RelationId, v: nat, n: nat, p: Purpose, next: Saga, after: After, r: Reply)
    requires Back(next.status) && next.relation == own && next.link == JobLink(j) && p.AlreadyFriends?
    requires !after.NextCredit? && !after.NextMail? && after != StopHere && after != StopOrFail
    requires r.Done? ==> next.link in t.sagas && t.sagas[next.link] == Row(next, r.version)
    ensures Dark(t, j, own, FeedSagaWrite(j, v, n, p, next, after, r))
  {
  }

  lemma FeedDark(t: Store, d: Driver, own: RelationId, r: Reply)
    requires DriverOK(t, d) && Truth(t, CallOf(d), r) && Dark(t, d.job, own, d.run)
    ensures Dark(t, d.job, own, Feed(d, r).run)
  {
    hide Stable, Lineage, Listed, Slots, ListLineage, FeedList, FeedSagaWrite, LaterSaga;
    if d.run.Advancing? {
      var (at, g, v, n, p) := (d.run.at, d.run.saga, d.run.version, d.run.steps, d.run.purpose);
      match at
      case Listing(e, name, k, phase) => ReleaseDark(t, d.job, own, g, v, n, p, e, name, k, phase, r);
      case SagaWrite(next, after) => WriteDark(t, d.job, own, v, n, p, next, after, r);
      case _ =>
    }
  }

  // ------------------------------------------------------------- one step of the world

  lemma BrightLater(s: Store, t: Store, j: Job, own: RelationId, run: Run)
    requires Later(s, t) && Bright(s, j, own, run)
    ensures Bright(t, j, own, run)
  {
  }

  lemma DarkLater(s: Store, t: Store, j: Job, own: RelationId, run: Run)
    requires Later(s, t) && Dark(s, j, own, run)
    ensures Dark(t, j, own, run)
  {
    if JobLink(j) in s.sagas { assert LaterSaga(s.sagas[JobLink(j)], t.sagas[JobLink(j)]); }
  }

  /** This event is the driver's refusal at the cap: it loads a list with no room. */
  predicate Refused(w: World, e: Event, id: nat) {
    e.Act? && e.id == id && id in w.drivers
    && CapReply(w.drivers[id], Perform(w.store, CallOf(w.drivers[id]), e.fault, e.pick).1)
  }

  predicate Side(w: World, id: nat, own: RelationId, dark: bool) {
    id in w.drivers
    && if dark then Dark(w.store, w.drivers[id].job, own, w.drivers[id].run)
       else Bright(w.store, w.drivers[id].job, own, w.drivers[id].run)
  }

  /** One event keeps the driver on its side, or takes it over at the cap. */
  lemma SideStep(w: World, e: Event, id: nat, own: RelationId, dark: bool)
    requires Inv(w) && Side(w, id, own, dark)
    ensures Side(Step(w, e), id, own, dark || Refused(w, e, id))
    ensures Step(w, e).drivers[id].job == w.drivers[id].job
  {
    hide StoreOK, Later, DriverOK, Bright, Dark, Truth, Apply, CapReply;
    StepKeeps(w, e);
    var s, t := w.store, Step(w, e).store;
    var d := w.drivers[id];
    if e.Act? && e.id == id {
      var (u, r) := Perform(s, CallOf(d), e.fault, e.pick);
      assert DriverOK(s, d);
      DriverLater(s, t, d);
      ApplyTrue(s, CallOf(d), e.fault, e.pick);
      if dark {
        DarkLater(s, t, d.job, own, d.run);
        FeedDark(t, d, own, r);
      } else {
        BrightLater(s, t, d.job, own, d.run);
        if CapReply(d, r) { CapTurnsBack(t, d, own, r); } else { FeedBright(t, d, own, r); }
      }
    } else {
      assert Step(w, e).drivers[id] == d;
      if dark { DarkLater(s, t, d.job, own, d.run); } else { BrightLater(s, t, d.job, own, d.run); }
    }
  }

  // ------------------------------------------------------------- the theorems

  /** Some event among the later ones refused the driver at the cap. */
  ghost predicate RefusedDuring(owners: map<string, PlayerId>, before: seq<Event>, more: seq<Event>, id: nat)
    decreases |more|
  {
    more != []
    && (RefusedDuring(owners, before, more[..|more| - 1], id)
        || Refused(RunAll(Empty(owners), before + more[..|more| - 1]), more[|more| - 1], id))
  }

  lemma {:induction false} SideKept(
    owners: map<string, PlayerId>, before: seq<Event>, more: seq<Event>, id: nat, own: RelationId, dark: bool)
    requires Side(RunAll(Empty(owners), before), id, own, dark)
    ensures Side(RunAll(Empty(owners), before + more), id, own, dark || RefusedDuring(owners, before, more, id))
    ensures RunAll(Empty(owners), before + more).drivers[id].job == RunAll(Empty(owners), before).drivers[id].job
    decreases |more|
  {
    hide Inv, Step, Refused;
    if more == [] {
      assert before + more == before;
    } else {
      var front := more[..|more| - 1];
      SideKept(owners, before, front, id, own, dark);
      RunKeeps(owners, before + front);
      assert (before + more)[..|before + more| - 1] == before + front;
      SideStep(RunAll(Empty(owners), before + front), more[|more| - 1], id, own, dark || RefusedDuring(owners, before, front, id));
    }
  }

  /** The own saga of the driver as it is now, if there is one. */
  predicate HasOwn(w: World, id: nat)
    requires id in w.drivers
  {
    JobLink(w.drivers[id].job) in w.store.sagas
  }

  function Own(w: World, id: nat): Saga
    requires id in w.drivers && HasOwn(w, id)
  {
    w.store.sagas[JobLink(w.drivers[id].job)].value
  }

  /** The read on entry puts the driver on its side. */
  lemma EntrySide(w: World, id: nat, pick: Pick)
    requires Inv(w) && id in w.drivers && w.drivers[id].run.EntryActiveSaga?
    ensures var own := if HasOwn(w, id) then Own(w, id).relation else 0;
      Side(Step(w, Act(id, Fine, pick)), id, own, HasOwn(w, id) && Back(Own(w, id).status))
    ensures Step(w, Act(id, Fine, pick)).drivers[id].job == w.drivers[id].job
    ensures !HasOwn(w, id) ==> Step(w, Act(id, Fine, pick)).drivers[id].run.Finished?
  {
    hide StoreOK, Stable, Enter;
    var d := w.drivers[id];
    assert DriverOK(w.store, d);
    if HasOwn(w, id) {
      SagaRow(w.store, JobLink(d.job));
      var g := Own(w, id);
      if Back(g.status) { EnterBack(w.store, d.job, g, w.store.sagas[JobLink(d.job)].version); }
      else if g.status != Completed {
        NotUnspecified(w.store, g);
        EnterBright(w.store, d.job, g.relation, g, w.store.sagas[JobLink(d.job)].version, 0, AlreadyFriends);
      }
    }
  }

  lemma NotUnspecified(s: Store, g: Saga)
    requires Stable(s, g)
    ensures g.status != Unspecified
  {
  }

  lemma EnterBack(t: Store, j: Job, g: Saga, v: nat)
    requires Back(g.status) && JobLink(j) in t.sagas && t.sagas[JobLink(j)] == Row(g, v)
    ensures Dark(t, j, g.relation, Enter(j, g, v, 0, AlreadyFriends))
  {
  }

  /** An aborted saga's relation ID is no relation's. */
  lemma AbortedIsNoRelation(s: Store, j: Job, own: RelationId)
    requires StoreOK(s) && JobOK(s, j) && Known(s, JobLink(j)) && OwnAborted(s, j, own)
    ensures !Ours(s, j, own)
  {
    hide StoreOK, Stable;
    SagaRow(s, JobLink(j));
    AbortedMinted(s, s.sagas[JobLink(j)].value);
    if Ours(s, j, own) { RelationOrigin(s, LowOf(j.owner, j.redeemer), HighOf(j.owner, j.redeemer), own); }
  }

  lemma AbortedMinted(s: Store, g: Saga)
    requires Stable(s, g) && g.status == Aborted
    ensures g.relation in s.minted && s.minted[g.relation] == g.link
  {
  }

  /** What a call that finds the pair already related answers is decided by what it
      reads of its own saga next: the active relation, unless that saga was RELEASING or
      ABORTED, or was still INIT or LOW_RESERVED and the call is then refused because a
      list is full and holds neither a slot of the link nor the friend. In those cases,
      and only in those, it answers with its own saga's ID, which is no relation's. */
  lemma AnswerDecidedOnEntry(owners: map<string, PlayerId>, before: seq<Event>, pick: Pick, more: seq<Event>, id: nat)
    requires var w := RunAll(Empty(owners), before); id in w.drivers && w.drivers[id].run.EntryActiveSaga?
    requires var t := RunAll(Empty(owners), before + [Act(id, Fine, pick)] + more);
      id in t.drivers && t.drivers[id].run.Finished? && t.drivers[id].run.outcome.Linked?
    ensures var w := RunAll(Empty(owners), before);
      var t := RunAll(Empty(owners), before + [Act(id, Fine, pick)] + more);
      var answer := t.drivers[id].run.outcome.relation;
      var turned := (HasOwn(w, id) && Back(Own(w, id).status))
        || RefusedDuring(owners, before + [Act(id, Fine, pick)], more, id);
      && t.drivers[id].job == w.drivers[id].job
      && (Ours(t.store, w.drivers[id].job, answer) <==> !turned)
      && (turned ==> HasOwn(w, id) && answer == Own(w, id).relation)
  {
    hide Step, StoreOK, DriverOK;
    var w := RunAll(Empty(owners), before);
    var first := before + [Act(id, Fine, pick)];
    assert first[..|first| - 1] == before;
    RunKeeps(owners, before);
    RunKeeps(owners, first + more);
    EntrySide(w, id, pick);
    var own := if HasOwn(w, id) then Own(w, id).relation else 0;
    var dark := HasOwn(w, id) && Back(Own(w, id).status);
    SideKept(owners, first, more, id, own, dark);
    var t := RunAll(Empty(owners), first + more);
    assert DriverOK(w.store, w.drivers[id]) && DriverOK(t.store, t.drivers[id]);
    EntryKnowsLater(owners, before, pick, more, id);
    if dark || RefusedDuring(owners, first, more, id) {
      AbortedIsNoRelation(t.store, w.drivers[id].job, own);
      if !HasOwn(w, id) { NothingToRefuse(owners, first, more, id); }
    }
  }

  lemma EntryKnowsLater(owners: map<string, PlayerId>, before: seq<Event>, pick: Pick, more: seq<Event>, id: nat)
    requires var w := RunAll(Empty(owners), before); id in w.drivers && w.drivers[id].run.EntryActiveSaga?
    ensures var (w, t) := (RunAll(Empty(owners), before), RunAll(Empty(owners), before + [Act(id, Fine, pick)] + more));
      JobOK(t.store, w.drivers[id].job) && Known(t.store, JobLink(w.drivers[id].job))
  {
    hide Step, StoreOK, DriverOK;
    var w := RunAll(Empty(owners), before);
    RunKeeps(owners, before);
    assert DriverOK(w.store, w.drivers[id]);
    EntryKnows(w.store, w.drivers[id]);
    RunsMoveForward(owners, before, [Act(id, Fine, pick)] + more);
    assert before + ([Act(id, Fine, pick)] + more) == before + [Act(id, Fine, pick)] + more;
    KnownLater(w.store, RunAll(Empty(owners), before + [Act(id, Fine, pick)] + more).store, w.drivers[id].job);
  }

  lemma EntryKnows(s: Store, d: Driver)
    requires DriverOK(s, d) && d.run.EntryActiveSaga?
    ensures JobOK(s, d.job) && Known(s, JobLink(d.job))
  {
  }

  lemma KnownLater(s: Store, t: Store, j: Job)
    requires Later(s, t) && JobOK(s, j) && Known(s, JobLink(j))
    ensures JobOK(t, j) && Known(t, JobLink(j))
  {
  }

  /** A call that has answered is not refused any more. */
  lemma {:induction false} NothingToRefuse(owners: map<string, PlayerId>, before: seq<Event>, more: seq<Event>, id: nat)
    requires var w := RunAll(Empty(owners), before); id in w.drivers && w.drivers[id].run.Finished?
    ensures !RefusedDuring(owners, before, more, id)
    ensures var t := RunAll(Empty(owners), before + more); id in t.drivers && t.drivers[id].run.Finished?
    decreases |more|
  {
    hide Step, Refused;
    if more == [] {
      assert before + more == before;
    } else {
      var front := more[..|more| - 1];
      NothingToRefuse(owners, before, front, id);
      assert (before + more)[..|before + more| - 1] == before + front;
      AnsweredStays(RunAll(Empty(owners), before + front), more[|more| - 1], id);
    }
  }

  lemma AnsweredStays(w: World, e: Event, id: nat)
    requires id in w.drivers && w.drivers[id].run.Finished?
    ensures !Refused(w, e, id) && id in Step(w, e).drivers && Step(w, e).drivers[id].run.Finished?
  {
    hide Perform;
  }

  // ------------------------------------------------------------- past the cap test

  /** The driver's saga has its slots: it never reserves again. */
  predicate Past(run: Run) {
    match run
    case Advancing(at, g, _, _, _) =>
      Reached(g.status, BothReserved) && (at.SagaWrite? ==> Reached(at.next.status, BothReserved))
    case Finished(_) => true
    case _ => false
  }

  lemma EnterPast(j: Job, g: Saga, v: nat, n: nat, p: Purpose)
    requires Reached(g.status, BothReserved)
    ensures Past(Enter(j, g, v, n, p))
  {
  }

  lemma FeedPast(t: Store, d: Driver, r: Reply)
    requires DriverOK(t, d) && Past(d.run)
    ensures Past(Feed(d, r).run) && !CapReply(d, r)
  {
    hide Stable, Listed, Slots, ListLineage, HasFriend, Reserves, FeedList, FeedSagaWrite, FeedAdvance;
    if d.run.Advancing? {
      AdvanceFeeds(d, r);
      var (at, g, v, n, p) := (d.run.at, d.run.saga, d.run.version, d.run.steps, d.run.purpose);
      match at
      case Listing(e, name, k, phase) => ListPast(g, v, n, p, e, name, k, phase, r);
      case SagaWrite(next, after) => WritePast(d.job, v, n, p, next, after, r);
      case _ => OtherPast(d.job, at, g, v, n, p, r);
    }
  }

  lemma ListPast(g: Saga, v: nat, n: nat, p: Purpose, e: Edit, name: string, k: nat, phase: ListPhase, r: Reply)
    requires Reached(g.status, BothReserved) && EditStatus(e) == g.status
    ensures Past(FeedList(g, v, n, p, e, name, k, phase, r))
  {
    hide HasRelation;
  }

  lemma WritePast(j: Job, v: nat, n: nat, p: Purpose, next: Saga, after: After, r: Reply)
    requires Reached(next.status, BothReserved)
    requires after.NextCredit? ==> next.status == TaskCrediting
    requires after.NextMail? ==> next.status == RewardMailsCreated
    ensures Past(FeedSagaWrite(j, v, n, p, next, after, r))
  {
    hide Enter;
    if after == NextStep && r.Done? { EnterPast(j, next, r.version, n + 1, p); }
  }

  lemma OtherPast(j: Job, at: At, g: Saga, v: nat, n: nat, p: Purpose, r: Reply)
    requires !at.Listing? && !at.SagaWrite? && Reached(g.status, BothReserved)
    requires at.Crediting? ==> g.status == TaskCrediting
    ensures Past(FeedAdvance(j, at, g, v, n, p, r))
  {
  }

  lemma {:induction false} PastKept(owners: map<string, PlayerId>, before: seq<Event>, more: seq<Event>, id: nat)
    requires var w := RunAll(Empty(owners), before); id in w.drivers && Past(w.drivers[id].run)
    ensures var t := RunAll(Empty(owners), before + more); id in t.drivers && Past(t.drivers[id].run)
    ensures !RefusedDuring(owners, before, more, id)
    decreases |more|
  {
    hide StoreOK, DriverOK, Past, Perform, CapReply, Feed, CallOf;
    if more == [] {
      assert before + more == before;
    } else {
      var front := more[..|more| - 1];
      PastKept(owners, before, front, id);
      RunKeeps(owners, before + front);
      assert (before + more)[..|before + more| - 1] == before + front;
      PastStep(RunAll(Empty(owners), before + front), more[|more| - 1], id);
    }
  }

  lemma PastStep(w: World, e: Event, id: nat)
    requires Inv(w) && id in w.drivers && Past(w.drivers[id].run)
    ensures id in Step(w, e).drivers && Past(Step(w, e).drivers[id].run) && !Refused(w, e, id)
  {
    hide StoreOK, DriverOK, Past, CapReply, Feed, CallOf, Apply;
    var d := w.drivers[id];
    assert DriverOK(w.store, d);
    if e.Act? && e.id == id { FeedPast(w.store, d, Perform(w.store, CallOf(d), e.fault, e.pick).1); }
  }

  lemma EntryPast(w: World, id: nat, pick: Pick)
    requires Inv(w) && id in w.drivers && w.drivers[id].run.EntryActiveSaga?
    requires !HasOwn(w, id) || Reached(Own(w, id).status, BothReserved)
    ensures id in Step(w, Act(id, Fine, pick)).drivers && Past(Step(w, Act(id, Fine, pick)).drivers[id].run)
  {
    hide StoreOK, DriverOK, Enter;
    if HasOwn(w, id) {
      var row := w.store.sagas[JobLink(w.drivers[id].job)];
      EnterPast(w.drivers[id].job, row.value, row.version, 0, AlreadyFriends);
    }
  }

  /** In particular, a call whose own saga is absent, COMPLETED or anywhere past
      LOW_RESERVED when it reads it answers with the active relation. */
  lemma SettledSagaAnswersTheRelation(owners: map<string, PlayerId>, before: seq<Event>, pick: Pick, more: seq<Event>, id: nat)
    requires var w := RunAll(Empty(owners), before);
      && id in w.drivers && w.drivers[id].run.EntryActiveSaga?
      && (HasOwn(w, id) ==> Reached(Own(w, id).status, BothReserved))
    requires var t := RunAll(Empty(owners), before + [Act(id, Fine, pick)] + more);
      id in t.drivers && t.drivers[id].run.Finished? && t.drivers[id].run.outcome.Linked?
    ensures var t := RunAll(Empty(owners), before + [Act(id, Fine, pick)] + more);
      Ours(t.store, t.drivers[id].job, t.drivers[id].run.outcome.relation)
  {
    hide Inv, Step, Past;
    var first := before + [Act(id, Fine, pick)];
    assert first[..|first| - 1] == before;
    RunKeeps(owners, before);
    EntryPast(RunAll(Empty(owners), before), id, pick);
    PastKept(owners, first, more, id);
    AnswerDecidedOnEntry(owners, before, pick, more, id);
  }

  /** A call that finds the pair not yet related answers, if it answers with a relation
      at all, with the pair's active one; newly linked players list each other. */
  lemma FreshAnswerIsTheRelation(owners: map<string, PlayerId>, before: seq<Event>, more: seq<Event>, id: nat)
    requires var w := RunAll(Empty(owners), before); id in w.drivers && w.drivers[id].run.EntrySaga?
    requires var t := RunAll(Empty(owners), before + more);
      id in t.drivers && t.drivers[id].run.Finished? && t.drivers[id].run.outcome.Linked?
    ensures var t := RunAll(Empty(owners), before + more);
      var (j, o) := (t.drivers[id].job, t.drivers[id].run.outcome);
      && Ours(t.store, j, o.relation)
      && (o.newly ==> Listed(t.store, j.owner, j.redeemer, o.relation) && Listed(t.store, j.redeemer, j.owner, o.relation))
  {
    hide Step;
    EstablishKept(owners, before, more, id);
    AnswersAreTheRelation(owners, before + more, id);
    EstablishedIsOurs(RunAll(Empty(owners), before + more).store, RunAll(Empty(owners), before + more).drivers[id]);
  }

  lemma EstablishedIsOurs(s: Store, d: Driver)
    requires Establishing(s, d) && d.run.Finished? && d.run.outcome.Linked?
    ensures Ours(s, d.job, d.run.outcome.relation)
  {
  }

  predicate Establishing(s: Store, d: Driver) {
    && Bright(s, d.job, 0, d.run) && !d.run.EntryRelation? && !d.run.EntryActiveSaga?
    && (d.run.Advancing? ==> d.run.purpose.Establish?)
  }

  lemma {:induction false} EstablishKept(owners: map<string, PlayerId>, before: seq<Event>, more: seq<Event>, id: nat)
    requires var w := RunAll(Empty(owners), before); id in w.drivers && Establishing(w.store, w.drivers[id])
    ensures var t := RunAll(Empty(owners), before + more); id in t.drivers && Establishing(t.store, t.drivers[id])
    decreases |more|
  {
    hide Inv, Step, Bright;
    if more == [] {
      assert before + more == before;
    } else {
      var front := more[..|more| - 1];
      EstablishKept(owners, before, front, id);
      RunKeeps(owners, before + front);
      assert (before + more)[..|before + more| - 1] == before + front;
      var w := RunAll(Empty(owners), before + front);
      var e := more[|more| - 1];
      SideStep(w, e, id, 0, false);
      StaysEstablishing(w, e, id);
    }
  }

  lemma StaysEstablishing(w: World, e: Event, id: nat)
    requires id in w.drivers && Establishing(w.store, w.drivers[id])
    ensures !Refused(w, e, id)
    ensures var d := Step(w, e).drivers[id];
      (d.run.Advancing? ==> d.run.purpose.Establish?) && !d.run.EntryRelation? && !d.run.EntryActiveSaga?
  {
    hide Perform, Ours, HasFriend, Reserves;
  }
}
