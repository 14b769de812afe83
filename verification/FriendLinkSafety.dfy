/** Why every reachable world of the link saga is in order: each call of a driver
    that satisfies its invariant takes the tables to a later, consistent state, and
    nobody else's beliefs are disturbed by it. */
module FriendLinkSafety {
  import opened Common
  import opened FriendLists
  import opened FriendLinkDriver
  import opened FriendLinkWorld

  // ------------------------------------------------------ stability under steps

  lemma EntryKept(a: FriendList, b: FriendList, friend: PlayerId, relation: RelationId)
    requires a.entries <= b.entries
    ensures HasEntry(a, friend, relation) ==> HasEntry(b, friend, relation)
    ensures HasFriend(a, friend) ==> HasFriend(b, friend)
  {
    if HasFriend(a, friend) {
      var i :| 0 <= i < |a.entries| && a.entries[i].friend == friend;
      assert b.entries[i] == a.entries[i];
    }
    if HasEntry(a, friend, relation) {
      var i :| 0 <= i < |a.entries| && a.entries[i].friend == friend && a.entries[i].relation == relation;
      assert b.entries[i] == a.entries[i];
    }
  }

  lemma ListedKept(s: Store, t: Store, p: PlayerId, friend: PlayerId, relation: RelationId)
    requires Later(s, t) && Listed(s, p, friend, relation)
    ensures Listed(t, p, friend, relation)
  {
    EntryKept(s.lists[p].value, t.lists[p].value, friend, relation);
  }

  lemma StableLater(s: Store, t: Store, g: Saga)
    requires Later(s, t) && Stable(s, g)
    ensures Stable(t, g)
  {
    if Reached(g.status, ProjectionsApplied) {
      ListedKept(s, t, g.low, g.high, g.relation);
      ListedKept(s, t, g.high, g.low, g.relation);
    }
    assert Shape(t, g);
    assert CreditFacts(t, g);
    assert RewardFacts(t, g);
  }

  lemma SlotsLater(s: Store, t: Store, g: Saga)
    requires Later(s, t) && Shape(s, g) && Slots(s, g) && g.link in s.sagas
    requires t.sagas[g.link].value.status != Releasing && t.sagas[g.link].value.status != Aborted
    ensures Slots(t, g)
  {
    assert HeldSide(s, g.link, true) ==> HeldSide(t, g.link, true);
    assert HeldSide(s, g.link, false) ==> HeldSide(t, g.link, false);
  }

  lemma SagaChain(a: Row<Saga>, b: Row<Saga>, c: Row<Saga>)
    requires LaterSaga(a, b) && LaterSaga(b, c)
    ensures LaterSaga(a, c)
  {}

  lemma AtLater(s: Store, t: Store, g: Saga, v: nat, at: At)
    requires Later(s, t) && Lineage(s, g, v) && Stable(s, g) && AtOK(s, g, v, at)
    ensures Lineage(t, g, v) && AtOK(t, g, v, at)
  {
    hide HasEntry, PlanFor, Stable, Slots, SlotsKept;
    SagaChain(Row(g, v), s.sagas[g.link], t.sagas[g.link]);
    match at
    case Listing(e, name, k, phase) =>
      if e == ConsumeHigh { ListedKept(s, t, g.low, g.high, g.relation); }
    case NameRead(e) =>
      if e == ConsumeHigh { ListedKept(s, t, g.low, g.high, g.relation); }
    case SagaWrite(next, after) => WriteLater(s, t, g, v, next);
    case _ =>
  }

  /** A saga about to be written keeps what it relies on. */
  lemma WriteLater(s: Store, t: Store, g: Saga, v: nat, next: Saga)
    requires Later(s, t) && Lineage(s, g, v) && next.link == g.link && Stable(s, next)
    requires LaterSaga(Row(g, v), Row(next, v + 1)) && (s.sagas[g.link].version == v ==> Slots(s, next))
    ensures g.link in t.sagas && Stable(t, next) && (t.sagas[g.link].version == v ==> Slots(t, next))
  {
    hide Slots;
    SagaChain(Row(g, v), s.sagas[g.link], t.sagas[g.link]);
    StableLater(s, t, next);
    hide Stable;
    if t.sagas[g.link].version == v {
      assert t.sagas[g.link].value == g;
      WriteSlots(s, t, g, v, next);
    }
  }

  lemma WriteSlots(s: Store, t: Store, g: Saga, v: nat, next: Saga)
    requires Later(s, t) && next.link == g.link && g.link in s.sagas && Stable(s, next) && Slots(s, next)
    requires t.sagas[g.link] == Row(g, v) && LaterSaga(Row(g, v), Row(next, v + 1))
    ensures Slots(t, next)
  {
    if Reached(next.status, LowReserved) {
      SlotsLater(s, t, next);
    }
  }

  lemma AnswerLater(s: Store, t: Store, j: Job, o: Outcome)
    requires Later(s, t) && AnswerOK(s, j, o)
    ensures AnswerOK(t, j, o)
  {
    if o.Linked? && o.newly {
      var (l, h) := PairOf(s, JobLink(j));
      ListedKept(s, t, l, h, o.relation);
      ListedKept(s, t, h, l, o.relation);
    }
  }

  /** No step of one driver invalidates what another driver believes. */
  lemma DriverLater(s: Store, t: Store, d: Driver)
    requires Later(s, t) && DriverOK(s, d)
    ensures DriverOK(t, d)
  {
    match d.run
    case Advancing(at, g, v, n, p) =>
      AtLater(s, t, g, v, at);
      StableLater(s, t, g);
    case Finished(o) => AnswerLater(s, t, d.job, o);
    case _ =>
  }

  // Tables a step leaves alone stay consistent with the ones it changes.

  lemma SagaKeeps(s: Store, t: Store, link: Link)
    requires link in s.sagas && SagaOK(s, link) && Later(s, t) && s.sagas[link] == t.sagas[link]
    ensures SagaOK(t, link)
  {
    var g := s.sagas[link].value;
    StableLater(s, t, g);
    if Reached(g.status, LowReserved) {
      SlotsLater(s, t, g);
    }
  }

  lemma ListKeeps(s: Store, t: Store, p: PlayerId)
    requires Later(s, t) && p in s.lists && ListOK(s, p) && s.lists[p] == t.lists[p]
    ensures ListOK(t, p)
  {
    var l := t.lists[p].value;
    forall i | 0 <= i < |l.entries| ensures Backed(t, p, l.entries[i]) {
      assert Backed(s, p, l.entries[i]);
    }
    forall r | r in l.reservations ensures ReservedFor(t, p, r) {
      assert ReservedFor(s, p, r);
    }
  }

  lemma RelationKeeps(s: Store, t: Store, pair: Pair)
    requires Later(s, t) && pair in s.relations && RelationOK(s, pair)
    ensures RelationOK(t, pair)
  {
  }

  lemma CreditKeeps(s: Store, t: Store, c: (PlayerId, RelationId))
    requires Later(s, t) && c in s.credits && CreditOK(s, c)
    ensures CreditOK(t, c)
  {
  }

  lemma RewardKeeps(s: Store, t: Store, i: PlayerId)
    requires Later(s, t) && i in s.rewards && RewardOK(s, i)
    ensures RewardOK(t, i)
  {
  }

  lemma MailKeeps(s: Store, t: Store, m: Mail)
    requires Later(s, t) && m in s.mails && MailOK(s, m)
    ensures MailOK(t, m)
  {
    var link := Link(s.rewards[m.source.invitee].code, m.source.invitee);
    assert LaterSaga(s.sagas[link], t.sagas[link]);
  }

  /** Everything a step did not write is still in order. */
  lemma RestKeeps(s: Store, t: Store)
    requires StoreOK(s) && Later(s, t)
    ensures forall p :: p in s.lists && s.lists[p] == t.lists[p] ==> ListOK(t, p)
    ensures forall pair :: pair in s.relations ==> RelationOK(t, pair)
    ensures forall c :: c in s.credits ==> CreditOK(t, c)
    ensures forall i :: i in s.rewards ==> RewardOK(t, i)
    ensures forall m :: m in s.mails ==> MailOK(t, m)
    ensures forall r :: r in s.minted ==> Known(t, s.minted[r])
  {
    forall p | p in s.lists && s.lists[p] == t.lists[p] ensures ListOK(t, p) { ListKeeps(s, t, p); }
    forall pair | pair in s.relations ensures RelationOK(t, pair) { RelationKeeps(s, t, pair); }
    forall c | c in s.credits ensures CreditOK(t, c) { CreditKeeps(s, t, c); }
    forall i | i in s.rewards ensures RewardOK(t, i) { RewardKeeps(s, t, i); }
    forall m | m in s.mails ensures MailOK(t, m) { MailKeeps(s, t, m); }
  }

  // ------------------------------------------------------------ effects of calls

  /** The store after a step is in order and is a later store. */
  predicate Good(s: Store, t: Store) { StoreOK(t) && Later(s, t) }

  lemma SideSame(s: Store, t: Store, link: Link, low: bool)
    requires s.owners == t.owners && Known(s, link)
    requires forall p :: p in s.lists ==> p in t.lists
    requires var p := if low then PairOf(s, link).0 else PairOf(s, link).1;
      p in s.lists ==> s.lists[p] == t.lists[p]
    requires HeldSide(s, link, low)
    ensures HeldSide(t, link, low)
  {}

  /** Steps that leave the saga and list tables alone. */
  lemma LaterLedger(s: Store, t: Store)
    requires s.owners == t.owners && s.sagas == t.sagas && s.lists == t.lists
    requires forall pair :: pair in s.relations ==> pair in t.relations && s.relations[pair] == t.relations[pair]
    requires forall i :: i in s.rewards ==> i in t.rewards && s.rewards[i] == t.rewards[i]
    requires forall r :: r in s.minted ==> r in t.minted && s.minted[r] == t.minted[r]
    requires s.credits <= t.credits && s.mails <= t.mails
    ensures Later(s, t)
  {
    hide HeldSide;
    forall link, low | link in s.sagas && Known(s, link) && HeldSide(s, link, low)
      ensures HeldSide(t, link, low)
    {
      SideSame(s, t, link, low);
    }
  }

  /** Steps that write one saga row. */
  lemma LaterWithSaga(s: Store, t: Store, g: Saga, v: nat)
    requires t == s.(sagas := s.sagas[g.link := Row(g, v)])
    requires g.link in s.sagas ==> LaterSaga(s.sagas[g.link], Row(g, v))
    ensures Later(s, t)
  {
    hide HeldSide;
    forall link, low | link in s.sagas && Known(s, link) && HeldSide(s, link, low)
      ensures HeldSide(t, link, low)
    {
      SideSame(s, t, link, low);
    }
  }

  /** Put a step together: everything it did not write is kept, and the one row it
      wrote is in order. */
  lemma Assemble(s: Store, t: Store)
    requires StoreOK(s) && Later(s, t)
    requires forall link :: link in t.sagas && !(link in s.sagas && s.sagas[link] == t.sagas[link]) ==> SagaOK(t, link)
    requires forall p :: p in t.lists && !(p in s.lists && s.lists[p] == t.lists[p]) ==> ListOK(t, p)
    requires forall pair :: pair in t.relations && pair !in s.relations ==> RelationOK(t, pair)
    requires forall c :: c in t.credits && c !in s.credits ==> CreditOK(t, c)
    requires forall i :: i in t.rewards && i !in s.rewards ==> RewardOK(t, i)
    requires forall m :: m in t.mails && m !in s.mails ==> MailOK(t, m)
    requires forall r :: r in t.minted && r !in s.minted ==> Known(t, t.minted[r])
    ensures Good(s, t)
  {
    hide SagaOK, ListOK, RelationOK, CreditOK, RewardOK, MailOK, LaterSaga, LaterList, SlotsKept;
    forall link | link in t.sagas ensures SagaOK(t, link) {
      if link in s.sagas && s.sagas[link] == t.sagas[link] { SagaKeeps(s, t, link); }
    }
    RestKeeps(s, t);
  }

  lemma Same(s: Store)
    requires StoreOK(s)
    ensures Good(s, s)
  {}

  lemma MintStep(s: Store, relation: RelationId, link: Link)
    requires StoreOK(s) && Known(s, link) && relation !in s.minted
    ensures Good(s, s.(minted := s.minted[relation := link]))
  {
    var t := s.(minted := s.minted[relation := link]);
    LaterLedger(s, t);
    Assemble(s, t);
  }

  lemma NewRowOK(s: Store, t: Store, g: Saga)
    requires Later(s, t) && g.link in t.sagas && t.sagas[g.link].value == g && s.lists == t.lists
    requires Stable(s, g) && Slots(s, g)
    ensures SagaOK(t, g.link)
  {
    StableLater(s, t, g);
  }

  lemma InsertSagaStep(s: Store, g: Saga)
    requires StoreOK(s) && g.link !in s.sagas && g.status == Init && Stable(s, g)
    ensures Good(s, s.(sagas := s.sagas[g.link := Row(g, 1)]))
  {
    var t := s.(sagas := s.sagas[g.link := Row(g, 1)]);
    LaterWithSaga(s, t, g, 1);
    NewRowOK(s, t, g);
    hide *;
    Assemble(s, t);
  }

  lemma UpdateSagaStep(s: Store, v: nat, next: Saga)
    requires StoreOK(s) && next.link in s.sagas && s.sagas[next.link].version == v
    requires LaterSaga(s.sagas[next.link], Row(next, v + 1)) && Stable(s, next) && Slots(s, next)
    ensures Good(s, s.(sagas := s.sagas[next.link := Row(next, v + 1)]))
  {
    var t := s.(sagas := s.sagas[next.link := Row(next, v + 1)]);
    LaterWithSaga(s, t, next, v + 1);
    NewRowOK(s, t, next);
    hide *;
    Assemble(s, t);
  }

  lemma InsertListStep(s: Store, p: PlayerId)
    requires StoreOK(s) && p !in s.lists
    ensures Good(s, s.(lists := s.lists[p := Row(EMPTY_LIST, 1)]))
  {
    hide SagaOK, RelationOK, CreditOK, RewardOK, MailOK;
    var t := s.(lists := s.lists[p := Row(EMPTY_LIST, 1)]);
    assert Later(s, t);
    assert ListOK(t, p);
    hide *;
    Assemble(s, t);
  }

  /** Every slot that a saga outside its releasing path holds on `p` is still held, or
      has become an entry. */
  predicate SlotsSurvive(s: Store, p: PlayerId, l: FriendList)
    requires p in s.lists
  {
    forall link ::
      (link in s.sagas && Known(s, link) && Reserves(s.lists[p].value.reservations, link)
       && s.sagas[link].value.status != Releasing && s.sagas[link].value.status != Aborted)
      ==> Reserves(l.reservations, link) || HasFriend(l, OtherOf(s, link, p))
  }

  lemma SlotsAcrossList(s: Store, t: Store, p: PlayerId, l: FriendList)
    requires p in s.lists && s.lists[p].value.entries <= l.entries && SlotsSurvive(s, p, l)
    requires exists v :: t == s.(lists := s.lists[p := Row(l, v)])
    ensures SlotsKept(s, t)
  {
    forall link, low | link in s.sagas && Known(s, link) && HeldSide(s, link, low)
      && s.sagas[link].value.status != Releasing && s.sagas[link].value.status != Aborted
      ensures HeldSide(t, link, low)
    {
      var (a, b) := PairOf(s, link);
      EntryKept(s.lists[p].value, l, if low then b else a, 0);
    }
  }

  /** Replacing one list is safe when the new list is in order, drops no entry and
      keeps the held slots of every saga that is not releasing. */
  lemma UpdateListStep(s: Store, p: PlayerId, v: nat, l: FriendList)
    requires StoreOK(s) && p in s.lists && s.lists[p].version == v
    requires s.lists[p].value.entries <= l.entries
    requires WellCounted(l)
    requires forall i :: 0 <= i < |l.entries| ==> Backed(s, p, l.entries[i])
    requires forall r :: r in l.reservations ==> ReservedFor(s, p, r)
    requires SlotsSurvive(s, p, l)
    ensures Good(s, s.(lists := s.lists[p := Row(l, v + 1)]))
  {
    hide SagaOK, RelationOK, CreditOK, RewardOK, MailOK;
    var t := s.(lists := s.lists[p := Row(l, v + 1)]);
    SlotsAcrossList(s, t, p, l);
    hide SlotsSurvive, HeldSide;
    assert Later(s, t);
    forall i | 0 <= i < |l.entries| ensures Backed(t, p, l.entries[i]) {
      assert Backed(s, p, l.entries[i]);
    }
    forall r | r in l.reservations ensures ReservedFor(t, p, r) {
      assert ReservedFor(s, p, r);
    }
    assert ListOK(t, p);
    hide *;
    Assemble(s, t);
  }

  function OtherOf(s: Store, link: Link, p: PlayerId): PlayerId
    requires Known(s, link)
  {
    if PairOf(s, link).0 == p then PairOf(s, link).1 else PairOf(s, link).0
  }

  lemma ReserveStep(s: Store, p: PlayerId, v: nat, link: Link, friend: PlayerId)
    requires StoreOK(s) && p in s.lists && s.lists[p].version == v
    requires ReservedFor(s, p, Reservation(link, friend))
    requires PlanReserve(s.lists[p].value, link, friend).Write?
    ensures Good(s, s.(lists := s.lists[p := Row(PlanReserve(s.lists[p].value, link, friend).list, v + 1)]))
  {
    hide SagaOK, RelationOK, CreditOK, RewardOK, MailOK;
    assert ListOK(s, p);
    var l := s.lists[p].value;
    ReserveKeeps(l, link, friend);
    var next := PlanReserve(l, link, friend).list;
    forall r | r in next.reservations ensures ReservedFor(s, p, r) {
      if r in l.reservations { assert ReservedFor(s, p, r); }
    }
    UpdateListStep(s, p, v, next);
  }

  lemma ReleaseStep(s: Store, p: PlayerId, v: nat, link: Link)
    requires StoreOK(s) && p in s.lists && s.lists[p].version == v
    requires link in s.sagas && (s.sagas[link].value.status == Releasing || s.sagas[link].value.status == Aborted)
    ensures Good(s, s.(lists := s.lists[p := Row(Freed(s.lists[p].value, link), v + 1)]))
  {
    hide SagaOK, RelationOK, CreditOK, RewardOK, MailOK;
    assert ListOK(s, p);
    var l := s.lists[p].value;
    FreedKeeps(l, link);
    WithoutSpec(l.reservations, link);
    forall r | r in Freed(l, link).reservations ensures ReservedFor(s, p, r) {
      assert r in l.reservations;
    }
    UpdateListStep(s, p, v, Freed(l, link));
  }

  /** A player's list names the other side of a related pair only under that
      relation's ID. */
  lemma FriendMeansRelation(s: Store, p: PlayerId, friend: PlayerId, relation: RelationId)
    requires StoreOK(s) && p in s.lists && p != friend
    requires Related(s, LowOf(p, friend), HighOf(p, friend), relation)
    ensures HasFriend(s.lists[p].value, friend) <==> HasRelation(s.lists[p].value, relation)
    ensures HasRelation(s.lists[p].value, relation) ==> HasEntry(s.lists[p].value, friend, relation)
  {
    assert ListOK(s, p);
    var l := s.lists[p].value;
    if HasFriend(l, friend) {
      var i :| 0 <= i < |l.entries| && l.entries[i].friend == friend;
      assert Backed(s, p, l.entries[i]);
    }
    if HasRelation(l, relation) {
      var i :| 0 <= i < |l.entries| && l.entries[i].relation == relation;
      var e := l.entries[i];
      assert Backed(s, p, e);
      assert RelationOK(s, (LowOf(p, e.friend), HighOf(p, e.friend)));
      assert RelationOK(s, (LowOf(p, friend), HighOf(p, friend)));
      assert e.friend == friend;
    }
  }

  /** The hard step: an entry is only ever added in exchange for a held slot. */
  lemma ConsumeStep(s: Store, p: PlayerId, v: nat, link: Link, friend: PlayerId, name: string, relation: RelationId)
    requires StoreOK(s) && p in s.lists && s.lists[p].version == v
    requires Known(s, link) && (PairOf(s, link) == (p, friend) || PairOf(s, link) == (friend, p))
    requires Related(s, LowOf(p, friend), HighOf(p, friend), relation)
    requires Held(s, p, friend, link)
    requires PlanConsume(s.lists[p].value, link, friend, name, relation).Write?
    ensures Good(s, s.(lists := s.lists[p := Row(PlanConsume(s.lists[p].value, link, friend, name, relation).list, v + 1)]))
    ensures HasEntry(PlanConsume(s.lists[p].value, link, friend, name, relation).list, friend, relation)
  {
    hide SagaOK, RelationOK, CreditOK, RewardOK, MailOK;
    assert ListOK(s, p);
    var l := s.lists[p].value;
    FriendMeansRelation(s, p, friend, relation);
    ConsumeKeepsIff(l, link, friend, name, relation);
    WithoutSpec(l.reservations, link);
    var next := PlanConsume(l, link, friend, name, relation).list;
    assert next.entries[|l.entries|] == Entry(friend, name, relation);
    forall i | 0 <= i < |next.entries| ensures Backed(s, p, next.entries[i]) {
      if i < |l.entries| { assert Backed(s, p, l.entries[i]); }
    }
    forall r | r in next.reservations ensures ReservedFor(s, p, r) {
      assert r in l.reservations;
    }
    UpdateListStep(s, p, v, next);
  }

  lemma InsertRelationStep(s: Store, link: Link)
    requires StoreOK(s) && link in s.sagas
    requires Reached(s.sagas[link].value.status, BothReserved)
    requires var g := s.sagas[link].value; s.minted[g.relation] == link && (g.low, g.high) !in s.relations
    ensures var g := s.sagas[link].value;
      Good(s, s.(relations := s.relations[(g.low, g.high) := g.relation]))
  {
    hide ListOK, CreditOK, RewardOK, MailOK;
    var g := s.sagas[link].value;
    assert SagaOK(s, link);
    var t := s.(relations := s.relations[(g.low, g.high) := g.relation]);
    LaterLedger(s, t);
    assert RelationOK(t, (g.low, g.high));
    hide *;
    Assemble(s, t);
  }

  lemma CreditStep(s: Store, p: PlayerId, g: Saga)
    requires StoreOK(s) && Stable(s, g) && Reached(g.status, RelationActive) && (p == g.low || p == g.high)
    ensures Good(s, s.(credits := s.credits + {(p, g.relation)}))
  {
    hide SagaOK, ListOK, RelationOK, RewardOK, MailOK;
    var t := s.(credits := s.credits + {(p, g.relation)});
    LaterLedger(s, t);
    assert CreditOK(t, (p, g.relation));
    hide *;
    Assemble(s, t);
  }

  lemma ClaimStep(s: Store, g: Saga)
    requires StoreOK(s) && Stable(s, g) && Reached(g.status, RelationActive) && g.link.redeemer !in s.rewards
    ensures Good(s, s.(rewards := s.rewards[g.link.redeemer := Reward(g.owner, g.relation, g.link.code)]))
  {
    hide SagaOK, ListOK, RelationOK, CreditOK, MailOK;
    var t := s.(rewards := s.rewards[g.link.redeemer := Reward(g.owner, g.relation, g.link.code)]);
    LaterLedger(s, t);
    assert RewardOK(t, g.link.redeemer);
    hide *;
    Assemble(s, t);
  }

  lemma MailingIsClaimed(s: Store, g: Saga, v: nat)
    requires Lineage(s, g, v) && Stable(s, g) && g.status == RewardMailsCreated
    ensures g.link in s.sagas && s.sagas[g.link].value.claimed
  {
    hide Shape, Listed, CreditFacts, Winner, MailSent;
  }

  lemma MailStep(s: Store, g: Saga, side: MailSide)
    requires StoreOK(s) && Stable(s, g) && Winner(s, g)
    requires g.link in s.sagas && s.sagas[g.link].value.claimed
    ensures Good(s, s.(mails := s.mails + {Mail(SourceId(g.link.redeemer, side), Recipient(g, side))}))
  {
    hide SagaOK, ListOK, RelationOK, CreditOK;
    var m := Mail(SourceId(g.link.redeemer, side), Recipient(g, side));
    var t := s.(mails := s.mails + {m});
    assert RewardOK(s, g.link.redeemer);
    LaterLedger(s, t);
    assert MailOK(t, m);
    hide *;
    Assemble(s, t);
  }

  // --------------------------------------------------- a driver's call keeps order

  /** What a reply tells about the store it came from. */
  predicate Truth(t: Store, c: Call, r: Reply) {
    match c
    case GetRelation(l, h) => r.RelationIs? ==> Related(t, l, h, r.relation)
    case InsertRelation(l, h, relation) => r.Done? ==> Related(t, l, h, relation)
    case GetSaga(link) => r.SagaIs? ==> link in t.sagas && t.sagas[link] == Row(r.saga, r.version)
    case MintRelation(link) => r.Minted? ==> r.relation in t.minted && t.minted[r.relation] == link
    case InsertSaga(g) => r.Done? ==> g.link in t.sagas && t.sagas[g.link] == Row(g, r.version)
    case UpdateSaga(g, v) => r.Done? ==> g.link in t.sagas && t.sagas[g.link] == Row(g, r.version)
    case GetList(p) => r.ListIs? ==> p in t.lists && t.lists[p] == Row(r.list, r.version)
    case InsertList(p) => r.Done? ==> p in t.lists && t.lists[p] == Row(EMPTY_LIST, r.version)
    case UpdateList(p, l, v) => r.Done? ==> p in t.lists && t.lists[p] == Row(l, r.version)
    case CreditTask(p, relation) => r.Done? ==> (p, relation) in t.credits
    case ClaimReward(invitee, inviter, relation, code) =>
      r.ClaimIs? && r.claimed ==> invitee in t.rewards && t.rewards[invitee] == Reward(inviter, relation, code)
    case SendMail(source, recipient) => r.Done? ==> Mail(source, recipient) in t.mails
    case AccountName(_) => true
    case NoCall => true
  }

  lemma ApplyTrue(s: Store, c: Call, fault: Fault, pick: Pick)
    ensures Truth(Perform(s, c, fault, pick).0, c, Perform(s, c, fault, pick).1)
  {}

  lemma SagaRow(s: Store, link: Link)
    requires StoreOK(s) && link in s.sagas
    ensures s.sagas[link].value.link == link && Stable(s, s.sagas[link].value) && Slots(s, s.sagas[link].value)
  {
    assert SagaOK(s, link);
  }

  /** What the durable saga of a driver at a list edit guarantees about that list. */
  lemma EditKnows(s: Store, g: Saga, v: nat, e: Edit)
    requires StoreOK(s) && Lineage(s, g, v) && Stable(s, g) && EditStatus(e) == g.status
    ensures ReservedFor(s, Subject(g, e), Reservation(g.link, Other(g, e)))
    ensures e == ConsumeLow || e == ConsumeHigh ==> Held(s, Subject(g, e), Other(g, e), g.link)
    ensures IsRelease(e) ==>
      s.sagas[g.link].value.status == Releasing || s.sagas[g.link].value.status == Aborted
  {
    hide StoreOK, Held, Related, Listed, HeldSide, CreditFacts, RewardFacts;
    SagaRow(s, g.link);
  }

  /** A list edit of a driver in good order. */
  lemma EditStep(s: Store, g: Saga, v: nat, e: Edit, name: string, k: nat, l: FriendList, lv: nat)
    requires StoreOK(s) && Lineage(s, g, v) && Stable(s, g)
    requires AtOK(s, g, v, Listing(e, name, k, Replace(l, lv)))
    requires s.lists[Subject(g, e)].version == lv
    ensures var p := Subject(g, e);
      Good(s, s.(lists := s.lists[p := Row(PlanFor(g, e, name, l).list, lv + 1)]))
  {
    hide StoreOK, Good, LaterSaga, Held, ReservedFor, CreditFacts, RewardFacts, PlanReserve, PlanConsume, WellCounted;
    var p := Subject(g, e);
    EditKnows(s, g, v, e);
    assert s.lists[p].value == l;
    match e {
      case ReserveLow => ReserveStep(s, p, lv, g.link, g.high);
      case ReserveHigh => ReserveStep(s, p, lv, g.link, g.low);
      case ConsumeLow => ConsumeStep(s, p, lv, g.link, g.high, name, g.relation);
      case ConsumeHigh => ConsumeStep(s, p, lv, g.link, g.low, name, g.relation);
      case ReleaseLow => ReleaseStep(s, p, lv, g.link);
      case ReleaseHigh => ReleaseStep(s, p, lv, g.link);
    }
  }

  lemma SagaWriteStep(s: Store, g: Saga, v: nat, next: Saga, after: After)
    requires StoreOK(s) && Lineage(s, g, v) && AtOK(s, g, v, SagaWrite(next, after))
    requires s.sagas[g.link].version == v
    ensures Good(s, s.(sagas := s.sagas[next.link := Row(next, v + 1)]))
  {
    UpdateSagaStep(s, v, next);
  }

  lemma RelationStep(s: Store, g: Saga, v: nat)
    requires StoreOK(s) && Lineage(s, g, v) && Stable(s, g) && g.status == BothReserved
    requires (g.low, g.high) !in s.relations
    ensures Good(s, s.(relations := s.relations[(g.low, g.high) := g.relation]))
  {
    var row := s.sagas[g.link].value;
    assert SagaOK(s, g.link);
    assert row.relation == g.relation;
    InsertRelationStep(s, g.link);
  }

  lemma AdvanceApplies(s: Store, d: Driver, pick: Pick)
    requires StoreOK(s) && DriverOK(s, d) && d.run.Advancing?
    ensures Good(s, Apply(s, CallOf(d), pick).0)
  {
    hide StoreOK, Later, LaterSaga, LaterList, HeldSide, Shape, CreditFacts;
    var (g, v, at) := (d.run.saga, d.run.version, d.run.at);
    var t := Apply(s, CallOf(d), pick).0;
    Same(s);
    hide Good;
    match at {
      case Listing(e, name, k, phase) =>
        match phase {
          case Read =>
          case Reread =>
          case Create => if Subject(g, e) !in s.lists { InsertListStep(s, Subject(g, e)); }
          case Replace(l, lv) =>
            if s.lists[Subject(g, e)].version == lv { EditStep(s, g, v, e, name, k, l, lv); }
        }
      case NameRead(e) =>
      case RelationCreate => if (g.low, g.high) !in s.relations { RelationStep(s, g, v); }
      case RelationRead =>
      case Crediting(low) => CreditStep(s, if low then g.low else g.high, g);
      case Claiming => if g.link.redeemer !in s.rewards { ClaimStep(s, g); }
      case Mailing(side) => MailingIsClaimed(s, g, v); MailStep(s, g, side);
      case SagaWrite(next, after) =>
        if s.sagas[g.link].version == v { SagaWriteStep(s, g, v, next, after); }
    }
  }

  lemma DriverApplies(s: Store, d: Driver, pick: Pick)
    requires StoreOK(s) && DriverOK(s, d)
    ensures Good(s, Apply(s, CallOf(d), pick).0)
  {
    hide Good, StoreOK, DriverOK, Apply, CallOf;
    if d.run.Advancing? { AdvanceApplies(s, d, pick); } else { EntryApplies(s, d, pick); }
  }

  lemma EntryApplies(s: Store, d: Driver, pick: Pick)
    requires StoreOK(s) && DriverOK(s, d) && !d.run.Advancing?
    ensures Good(s, Apply(s, CallOf(d), pick).0)
  {
    Same(s);
    if d.run.EntryMint? {
      MintKnown(s, d);
      hide StoreOK, DriverOK, Good;
      if pick.relation !in s.minted { MintStep(s, pick.relation, JobLink(d.job)); }
    } else if d.run.EntryInsert? {
      InsertStable(s, d);
      hide StoreOK, DriverOK, Good, Stable;
      if d.run.draft.link !in s.sagas { InsertSagaStep(s, d.run.draft); }
    } else {
      hide StoreOK, DriverOK, Good;
    }
  }

  lemma MintKnown(s: Store, d: Driver)
    requires DriverOK(s, d) && d.run.EntryMint?
    ensures Known(s, JobLink(d.job))
  {
  }

  lemma InsertStable(s: Store, d: Driver)
    requires DriverOK(s, d) && d.run.EntryInsert?
    ensures Stable(s, d.run.draft) && d.run.draft.status == Init
  {
  }

  // ------------------------------------------ a reply keeps its driver in good order

  predicate Base(t: Store, j: Job, g: Saga, v: nat) {
    JobOK(t, j) && Known(t, JobLink(j)) && g.link == JobLink(j) && Lineage(t, g, v) && Stable(t, g)
  }

  predicate RunOK(t: Store, j: Job, run: Run) { DriverOK(t, Driver(j, run)) }

  lemma ReturnOK(t: Store, j: Job, g: Saga, v: nat, p: Purpose)
    requires Base(t, j, g, v)
    requires Reached(g.status, ProjectionsApplied) || g.status == Aborted
    ensures RunOK(t, j, Return(g, p))
  {}

  lemma WriteOK(t: Store, j: Job, g: Saga, v: nat, n: nat, p: Purpose, next: Saga, after: After)
    requires Base(t, j, g, v) && AtOK(t, g, v, SagaWrite(next, after))
    ensures RunOK(t, j, WriteSaga(g, v, n, p, next, after))
  {}

  lemma SameSlots(t: Store, g: Saga, v: nat, next: Saga)
    requires StoreOK(t) && Lineage(t, g, v)
    requires next.low == g.low && next.high == g.high && next.link == g.link
    requires Reached(next.status, LowReserved) ==> Reached(g.status, LowReserved)
    requires Reached(next.status, BothReserved) ==> Reached(g.status, BothReserved)
    ensures t.sagas[g.link].version == v ==> Slots(t, next)
  {
    assert SagaOK(t, g.link);
  }

  lemma AfterCreditsOK(t: Store, j: Job, g: Saga, v: nat, n: nat, p: Purpose)
    requires StoreOK(t) && Base(t, j, g, v) && g.status == TaskCrediting && g.lowCredited && g.highCredited
    ensures RunOK(t, j, AfterCredits(j, g, v, n, p))
  {
    hide StoreOK, Held, Related, Listed, HeldSide;
    SameSlots(t, g, v, g.(status := if j.mailer then FirstRewardChecked else Completed));
  }

  lemma CreditFromOK(t: Store, j: Job, g: Saga, v: nat, n: nat, p: Purpose, low: bool)
    requires StoreOK(t) && Base(t, j, g, v) && g.status == TaskCrediting && (low || g.lowCredited)
    ensures RunOK(t, j, CreditFrom(j, g, v, n, p, low))
  {
    hide StoreOK, Held, Related, Listed, HeldSide;
    if g.lowCredited && g.highCredited {
      AfterCreditsOK(t, j, g, v, n, p);
    }
  }

  lemma MailsDoneOK(t: Store, j: Job, g: Saga, v: nat, n: nat, p: Purpose)
    requires StoreOK(t) && Base(t, j, g, v) && g.status == RewardMailsCreated
    requires g.inviterMail == MailApplied && g.inviteeMail == MailApplied
    ensures RunOK(t, j, WriteSaga(g, v, n, p, g.(status := Completed), NextStep))
  {
    hide StoreOK, Held, Related, Listed, HeldSide;
    SameSlots(t, g, v, g.(status := Completed));
  }

  lemma MailFromOK(t: Store, j: Job, g: Saga, v: nat, n: nat, p: Purpose, side: MailSide)
    requires StoreOK(t) && Base(t, j, g, v) && g.status == RewardMailsCreated
    requires side == ToInviter || g.inviterMail == MailApplied
    ensures RunOK(t, j, MailFrom(g, v, n, p, side))
  {
    hide StoreOK, Held, Related, Listed, HeldSide;
    if Settles(g.inviterMail) && Settles(g.inviteeMail) {
      MailsDoneOK(t, j, g, v, n, p);
    }
  }

  lemma CheckedOK(t: Store, j: Job, g: Saga, v: nat, n: nat, p: Purpose, claimed: bool)
    requires StoreOK(t) && Base(t, j, g, v) && g.status == FirstRewardChecked
    requires claimed ==> Winner(t, g)
    ensures RunOK(t, j, WriteSaga(g, v, n, p, Checked(g.(lastError := NoError), claimed), NextStep))
  {
    hide StoreOK, Held, Related, Listed, HeldSide;
    SameSlots(t, g, v, Checked(g.(lastError := NoError), claimed));
  }

  lemma EnterOK(t: Store, j: Job, g: Saga, v: nat, n: nat, p: Purpose)
    requires StoreOK(t) && Base(t, j, g, v)
    ensures RunOK(t, j, Enter(j, g, v, n, p))
  {
    hide SagaOK, ListOK, RelationOK, CreditOK, RewardOK, MailOK, LaterSaga, LaterList;
    if n < MAX_SAGA_STEPS {
      match g.status
      case TaskCrediting => CreditFromOK(t, j, g, v, n, p, true);
      case RewardMailsCreated =>
        ReturnOK(t, j, g, v, p);
        MailFromOK(t, j, g, v, n, p, ToInviter);
      case ProjectionsApplied => ProjectedOK(t, j, g, v, n, p);
      case Completed => ReturnOK(t, j, g, v, p);
      case Aborted => ReturnOK(t, j, g, v, p);
      case _ =>
    }
  }

  lemma ProjectedOK(t: Store, j: Job, g: Saga, v: nat, n: nat, p: Purpose)
    requires StoreOK(t) && Base(t, j, g, v) && g.status == ProjectionsApplied
    ensures RunOK(t, j, WriteSaga(g, v, n, p, g.(status := TaskCrediting), NextStep))
  {
    hide StoreOK, Held, Related, Listed, HeldSide;
    SameSlots(t, g, v, g.(status := TaskCrediting));
  }

  /** The edit came to an end; what it achieved holds now. */
  predicate EditDone(t: Store, g: Saga, e: Edit, ok: bool) {
    && (EditStatus(e) == g.status)
    && (e == ConsumeHigh ==> Listed(t, g.low, g.high, g.relation))
    && (e == ConsumeLow || e == ConsumeHigh ==> Listed(t, Subject(g, e), Other(g, e), g.relation))
    && ((e == ReserveLow || e == ReserveHigh) && ok ==> Held(t, Subject(g, e), Other(g, e), g.link))
  }

  lemma SettleReserveOK(t: Store, j: Job, g: Saga, v: nat, n: nat, p: Purpose, e: Edit, ok: bool)
    requires StoreOK(t) && Base(t, j, g, v) && EditDone(t, g, e, ok) && (e == ReserveLow || e == ReserveHigh)
    ensures RunOK(t, j, SettleEdit(g, v, n, p, e, ok))
  {
    hide StoreOK, Stable, Slots, SagaOK, Held, Related, Listed, HeldSide;
    var next := g.(status := if !ok then Releasing else if e == ReserveLow then LowReserved else BothReserved);
    ReservedOK(t, j, g, v, e, ok, next);
  }

  lemma ReservedOK(t: Store, j: Job, g: Saga, v: nat, e: Edit, ok: bool, next: Saga)
    requires StoreOK(t) && Base(t, j, g, v) && EditDone(t, g, e, ok) && (e == ReserveLow || e == ReserveHigh)
    requires next == g.(status := if !ok then Releasing else if e == ReserveLow then LowReserved else BothReserved)
    ensures Stable(t, next) && (t.sagas[g.link].version == v ==> Slots(t, next))
  {
    hide StoreOK, Held, Related, Listed, HeldSide;
    SagaRow(t, g.link);
  }

  lemma SettleConsumeOK(t: Store, j: Job, g: Saga, v: nat, n: nat, p: Purpose, e: Edit, ok: bool)
    requires StoreOK(t) && Base(t, j, g, v) && EditDone(t, g, e, ok) && (e == ConsumeLow || e == ConsumeHigh)
    ensures RunOK(t, j, SettleEdit(g, v, n, p, e, ok))
  {
    hide StoreOK, Held, Related, Listed, HeldSide;
    var next := g.(status := ProjectionsApplied);
    SameSlots(t, g, v, next);
    if e == ConsumeHigh { assert Stable(t, next); }
    hide Stable, Slots, SagaOK;
  }

  lemma SettleReleaseOK(t: Store, j: Job, g: Saga, v: nat, n: nat, p: Purpose, e: Edit, ok: bool)
    requires StoreOK(t) && Base(t, j, g, v) && EditDone(t, g, e, ok) && IsRelease(e)
    ensures RunOK(t, j, SettleEdit(g, v, n, p, e, ok))
  {
    hide StoreOK, Held, Related, Listed, HeldSide;
    assert Stable(t, g.(status := Aborted));
    hide Stable, SagaOK;
  }

  lemma SettleOK(t: Store, j: Job, g: Saga, v: nat, n: nat, p: Purpose, e: Edit, ok: bool)
    requires StoreOK(t) && Base(t, j, g, v) && EditDone(t, g, e, ok)
    ensures RunOK(t, j, SettleEdit(g, v, n, p, e, ok))
  {
    hide StoreOK, EditDone, Base, RunOK, SettleEdit;
    if e == ReserveLow || e == ReserveHigh {
      SettleReserveOK(t, j, g, v, n, p, e, ok);
    } else if e == ConsumeLow || e == ConsumeHigh {
      SettleConsumeOK(t, j, g, v, n, p, e, ok);
    } else {
      SettleReleaseOK(t, j, g, v, n, p, e, ok);
    }
  }

  lemma FailEditOK(t: Store, j: Job, g: Saga, v: nat, n: nat, p: Purpose, e: Edit)
    requires StoreOK(t) && Base(t, j, g, v) && EditStatus(e) == g.status
    ensures RunOK(t, j, FailEdit(g, v, n, p, e))
  {
    hide StoreOK, Stable, Lineage, SettleEdit, AtOK;
    if IsRelease(e) {
      SettleOK(t, j, g, v, n, p, e, true);
    }
  }

  /** A plan that settles on the current list says the truth about it. */
  lemma SettledMeans(t: Store, g: Saga, e: Edit, name: string)
    requires StoreOK(t) && Stable(t, g) && EditStatus(e) == g.status
    requires e == ConsumeHigh ==> Listed(t, g.low, g.high, g.relation)
    requires Subject(g, e) in t.lists && PlanFor(g, e, name, t.lists[Subject(g, e)].value).Settled?
    ensures EditDone(t, g, e, PlanFor(g, e, name, t.lists[Subject(g, e)].value).ok)
  {
    if e == ConsumeLow || e == ConsumeHigh {
      FriendMeansRelation(t, Subject(g, e), Other(g, e), g.relation);
    }
  }

  lemma DecideOK(
    t: Store, j: Job, g: Saga, v: nat, n: nat, p: Purpose, e: Edit, name: string, k: nat,
    l: FriendList, lv: nat)
    requires StoreOK(t) && Base(t, j, g, v) && EditStatus(e) == g.status
    requires e == ConsumeHigh ==> Listed(t, g.low, g.high, g.relation)
    requires Subject(g, e) in t.lists && t.lists[Subject(g, e)] == Row(l, lv)
    ensures RunOK(t, j, Decide(g, v, n, p, e, name, k, l, lv))
  {
    hide StoreOK, Stable, SettleEdit, EditDone, PlanFor, HasEntry;
    var plan := PlanFor(g, e, name, l);
    if plan.Settled? {
      SettledMeans(t, g, e, name);
      SettleOK(t, j, g, v, n, p, e, plan.ok);
    }
  }

  /** A successful list write achieved what the edit is for. */
  lemma WrittenMeans(t: Store, g: Saga, e: Edit, name: string, l: FriendList)
    requires EditStatus(e) == g.status
    requires e == ConsumeHigh ==> Listed(t, g.low, g.high, g.relation)
    requires PlanFor(g, e, name, l).Write?
    requires Subject(g, e) in t.lists && t.lists[Subject(g, e)].value == PlanFor(g, e, name, l).list
    ensures EditDone(t, g, e, true)
  {
    var next := PlanFor(g, e, name, l).list;
    match e {
      case ReserveLow => assert next.reservations[|l.reservations|].link == g.link;
      case ReserveHigh => assert next.reservations[|l.reservations|].link == g.link;
      case ConsumeLow => assert next.entries[|l.entries|] == Entry(g.high, name, g.relation);
      case ConsumeHigh => assert next.entries[|l.entries|] == Entry(g.low, name, g.relation);
      case ReleaseLow =>
      case ReleaseHigh =>
    }
  }

  lemma FeedListOK(
    t: Store, j: Job, g: Saga, v: nat, n: nat, p: Purpose, e: Edit, name: string, k: nat,
    phase: ListPhase, r: Reply)
    requires StoreOK(t) && Base(t, j, g, v) && AtOK(t, g, v, Listing(e, name, k, phase))
    requires Truth(t, AdvanceCall(Listing(e, name, k, phase), g, v), r)
    ensures RunOK(t, j, FeedList(g, v, n, p, e, name, k, phase, r))
  {
    hide SagaOK, ListOK, RelationOK, CreditOK, RewardOK, MailOK, LaterSaga, LaterList, Stable;
    FailEditOK(t, j, g, v, n, p, e);
    match phase {
      case Read =>
        if r.ListIs? { DecideOK(t, j, g, v, n, p, e, name, k, r.list, r.version); }
        if r.NotFound? && IsRelease(e) { SettleOK(t, j, g, v, n, p, e, true); }
      case Create =>
        if r.Done? { DecideOK(t, j, g, v, n, p, e, name, k, EMPTY_LIST, r.version); }
      case Reread =>
        if r.ListIs? { DecideOK(t, j, g, v, n, p, e, name, k, r.list, r.version); }
      case Replace(l, lv) =>
        if r.Done? {
          WrittenMeans(t, g, e, name, l);
          SettleOK(t, j, g, v, n, p, e, true);
        }
    }
  }

  lemma FeedSagaWriteOK(
    t: Store, j: Job, g: Saga, v: nat, n: nat, p: Purpose, next: Saga, after: After, r: Reply)
    requires StoreOK(t) && Base(t, j, g, v) && AtOK(t, g, v, SagaWrite(next, after))
    requires Truth(t, UpdateSaga(next, v), r)
    ensures RunOK(t, j, FeedSagaWrite(j, v, n, p, next, after, r))
  {
    hide StoreOK, Held, Related, Listed, HeldSide, CreditFacts, Shape, Slots;
    if r.Done? {
      assert Base(t, j, next, r.version);
      match after
      case NextStep => EnterOK(t, j, next, r.version, n + 1, p);
      case NextCredit(low) =>
        if low { CreditFromOK(t, j, next, r.version, n, p, false); }
        else { AfterCreditsOK(t, j, next, r.version, n, p); }
      case NextMail(side) =>
        if side == ToInviter { MailFromOK(t, j, next, r.version, n, p, ToInvitee); }
        else { MailsDoneOK(t, j, next, r.version, n, p); }
      case _ => ReturnOK(t, j, next, r.version, p);
    } else if after != NextStep && after != StopOrFail {
      StoppedOK(t, j, g, v, p, next);
    }
  }

  /** A driver that could not persist a credit or mail still answers truthfully. */
  lemma StoppedOK(t: Store, j: Job, g: Saga, v: nat, p: Purpose, next: Saga)
    requires Base(t, j, g, v) && next.link == g.link && Stable(t, next) && Reached(next.status, ProjectionsApplied)
    ensures RunOK(t, j, Return(next, p))
  {}

  lemma RelationMadeOK(t: Store, j: Job, g: Saga, v: nat, n: nat, p: Purpose, relation: RelationId)
    requires StoreOK(t) && Base(t, j, g, v) && g.status == BothReserved
    requires Related(t, g.low, g.high, relation)
    ensures RunOK(t, j, WriteSaga(g, v, n, p, g.(relation := relation, status := RelationActive), NextStep))
  {
    hide StoreOK, Held, Listed, HeldSide;
    var next := g.(relation := relation, status := RelationActive);
    SameSlots(t, g, v, next);
    RelationOrigin(t, g.low, g.high, relation);
  }

  lemma RelationOrigin(t: Store, low: PlayerId, high: PlayerId, relation: RelationId)
    requires StoreOK(t) && Related(t, low, high, relation)
    ensures relation in t.minted && Known(t, t.minted[relation]) && PairOf(t, t.minted[relation]) == (low, high)
    ensures t.minted[relation] in t.sagas && Reached(t.sagas[t.minted[relation]].value.status, BothReserved)
  {
    assert RelationOK(t, (low, high));
  }

  lemma CreditedOK(t: Store, j: Job, g: Saga, v: nat, n: nat, p: Purpose, low: bool)
    requires StoreOK(t) && Base(t, j, g, v) && g.status == TaskCrediting && (low || g.lowCredited)
    requires (if low then g.low else g.high, g.relation) in t.credits
    ensures RunOK(t, j, WriteSaga(g, v, n, p, Credited(g, low), NextCredit(low)))
  {
    hide StoreOK, Held, Related, Listed, HeldSide;
    SameSlots(t, g, v, Credited(g, low));
  }

  lemma MailedOK(t: Store, j: Job, g: Saga, v: nat, n: nat, p: Purpose, side: MailSide)
    requires StoreOK(t) && Base(t, j, g, v) && g.status == RewardMailsCreated
    requires side == ToInviter || g.inviterMail == MailApplied
    requires MailSent(t, g, side)
    ensures RunOK(t, j, WriteSaga(g, v, n, p, Mailed(g, side), NextMail(side)))
  {
    hide StoreOK, Held, Related, Listed, HeldSide;
    SameSlots(t, g, v, Mailed(g, side));
  }

  /** Recording an error changes nothing else. */
  lemma NotedOK(t: Store, j: Job, g: Saga, v: nat, n: nat, p: Purpose, e: LastError, after: After)
    requires StoreOK(t) && Base(t, j, g, v) && Reached(g.status, TaskCrediting)
    requires after == StopHere || after == StopOrFail
    requires ErrorFacts(g.(lastError := e))
    ensures RunOK(t, j, WriteSaga(g, v, n, p, g.(lastError := e), after))
  {
    hide StoreOK, Held, Related, Listed, HeldSide;
    SameSlots(t, g, v, g.(lastError := e));
  }

  lemma FeedAdvanceOK(t: Store, j: Job, at: At, g: Saga, v: nat, n: nat, p: Purpose, r: Reply)
    requires StoreOK(t) && Base(t, j, g, v) && AtOK(t, g, v, at) && Truth(t, AdvanceCall(at, g, v), r)
    ensures RunOK(t, j, FeedAdvance(j, at, g, v, n, p, r))
  {
    hide StoreOK, Held, HeldSide, CreditFacts, RewardFacts, Shape, Lineage;
    match at
    case Listing(e, name, k, phase) => FeedListOK(t, j, g, v, n, p, e, name, k, phase, r);
    case SagaWrite(next, after) => FeedSagaWriteOK(t, j, g, v, n, p, next, after, r);
    case NameRead(e) =>
    case RelationCreate => if r.Done? { RelationMadeOK(t, j, g, v, n, p, g.relation); }
    case RelationRead => if r.RelationIs? { RelationMadeOK(t, j, g, v, n, p, r.relation); }
    case Crediting(low) =>
      if r.Done? { CreditedOK(t, j, g, v, n, p, low); }
      else { NotedOK(t, j, g, v, n, p, TaskCreditFailed, StopHere); }
    case Claiming =>
      if r.ClaimIs? { CheckedOK(t, j, g, v, n, p, r.claimed); }
      else { NotedOK(t, j, g, v, n, p, FirstRewardCheckFailed, StopOrFail); }
    case Mailing(side) =>
      if r.Done? { MailedOK(t, j, g, v, n, p, side); }
      else { NotedOK(t, j, g, v, n, p, RewardMailFailed, StopHere); }
  }

  lemma LoadedOK(t: Store, j: Job, r: Reply, p: Purpose)
    requires StoreOK(t) && JobOK(t, j) && r.SagaIs?
    requires JobLink(j) in t.sagas && t.sagas[JobLink(j)] == Row(r.saga, r.version)
    ensures RunOK(t, j, Enter(j, r.saga, r.version, 0, p))
    ensures r.saga.status == Completed ==> Related(t, r.saga.low, r.saga.high, r.saga.relation)
  {
    SagaRow(t, JobLink(j));
    EnterOK(t, j, r.saga, r.version, 0, p);
  }

  /** Whatever reply the store gave, the driver's next belief is true of that store. */
  lemma FeedOK(t: Store, d: Driver, r: Reply)
    requires StoreOK(t) && DriverOK(t, d) && Truth(t, CallOf(d), r)
    ensures DriverOK(t, Feed(d, r))
  {
    hide StoreOK, Held, HeldSide, CreditFacts, RewardFacts;
    var j := d.job;
    match d.run
    case Advancing(at, g, v, n, p) => FeedAdvanceOK(t, j, at, g, v, n, p, r);
    case EntryInsert(g) => if r.Done? { InsertedOK(t, j, g, r.version); }
    case EntryActiveSaga(_) => if r.SagaIs? { LoadedOK(t, j, r, AlreadyFriends); }
    case EntrySaga => if r.SagaIs? { LoadedOK(t, j, r, Establish(r.saga.status != Completed)); }
    case EntryReload => if r.SagaIs? { LoadedOK(t, j, r, Establish(r.saga.status != Completed)); }
    case EntryReconcile => if r.SagaIs? { LoadedOK(t, j, r, Reconcile); }
    case _ =>
  }

  lemma InsertedOK(t: Store, j: Job, g: Saga, v: nat)
    requires StoreOK(t) && JobOK(t, j) && Known(t, JobLink(j)) && g == NewSaga(j, g.relation)
    requires g.link in t.sagas && t.sagas[g.link] == Row(g, v)
    ensures RunOK(t, j, Enter(j, g, v, 0, Establish(true)))
  {
    hide StoreOK;
    SagaRow(t, JobLink(j));
    EnterOK(t, j, g, v, 0, Establish(true));
  }
}
