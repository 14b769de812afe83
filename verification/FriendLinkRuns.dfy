/** Runs that reach the states the theorems leave open: a saga that is over and still
    holds a slot, and a call that answers with its own aborted saga's ID. */
module FriendLinkRuns {
  import opened Common
  import opened FriendLists
  import opened FriendLinkDriver
  import opened FriendLinkWorld
  import opened FriendLinkTheorems
  import opened FriendLinkAnswers
  import opened FriendLinkSlots

  /** Two players and a code of each: link A is the second's use of the first's code,
      link B the other way round. */
  const OWNERS: map<string, PlayerId> := map["1" := 1, "2" := 2]
  const NAMES: map<PlayerId, string> := map[1 := "ann", 2 := "bob"]

  function NameOf(p: PlayerId): string { if p == 1 then "ann" else "bob" }

  const A := Link("1", 2)
  const B := Link("2", 1)
  const JOB_A := Job(1, 2, "1", false)
  const JOB_B := Job(2, 1, "2", false)

  lemma Codes()
    ensures OWNERS["1"] == 1 && OWNERS["2"] == 2 && "1" in OWNERS && "2" in OWNERS && A != B
  {
    assert "1"[0] != "2"[0];
  }

  ghost predicate Reachable(w: World) { exists es :: w == RunAll(Empty(OWNERS), es) }

  lemma Next(w: World, e: Event) returns (t: World)
    requires Reachable(w)
    ensures t == Step(w, e) && Reachable(t)
  {
    hide Step;
    var es :| w == RunAll(Empty(OWNERS), es);
    assert (es + [e])[..|es|] == es;
    assert RunAll(Empty(OWNERS), es + [e]) == Step(w, e);
    t := Step(w, e);
  }

  const NONE := Pick(0, true)

  /** One answered call. */
  lemma Go(w: World, id: nat, pick: Pick) returns (t: World)
    requires Reachable(w) && id in w.drivers
    ensures Reachable(t)
    ensures var (s, r) := Apply(w.store, CallOf(w.drivers[id]), pick);
      t == World(s, w.drivers[id := Feed(w.drivers[id], r)])
  {
    hide Apply, CallOf, Feed;
    t := Next(w, Act(id, Fine, pick));
  }

  function Moved(w: World, id: nat, j: Job, run: Run): World { w.(drivers := w.drivers[id := Driver(j, run)]) }

  /** The pair is not related, the link has no saga and the relation ID is new. */
  predicate Unused(w: World, id: nat, j: Job, relation: RelationId) {
    && id !in w.drivers && j.code in w.store.owners && j.owner == w.store.owners[j.code] && !j.mailer
    && j.owner != 0 && j.redeemer != 0 && j.owner != j.redeemer
    && (LowOf(j.owner, j.redeemer), HighOf(j.owner, j.redeemer)) !in w.store.relations
    && JobLink(j) !in w.store.sagas && relation !in w.store.minted
  }

  lemma Enters(w: World, id: nat, j: Job, relation: RelationId) returns (t: World)
    requires Reachable(w) && Unused(w, id, j, relation)
    ensures Reachable(t) && t == Moved(w, id, j, EntryMint)
  {
    t := Next(w, Redeem(id, j.redeemer, j.code, false));
    assert t == Moved(w, id, j, EntryRelation);
    t := Go(t, id, NONE);
    assert t == Moved(w, id, j, EntrySaga);
    t := Go(t, id, NONE);
  }

  function WithSaga(w: World, g: Saga, v: nat): World {
    w.(store := w.store.(sagas := w.store.sagas[g.link := Row(g, v)]))
  }

  function Minted(w: World, relation: RelationId, k: Link): World {
    w.(store := w.store.(minted := w.store.minted[relation := k]))
  }

  /** A driver redeems a code for the first time: its saga is inserted at INIT. */
  lemma Begin(w: World, id: nat, j: Job, relation: RelationId) returns (t: World)
    requires Reachable(w) && Unused(w, id, j, relation)
    ensures Reachable(t)
    ensures var g := NewSaga(j, relation);
      t == Moved(WithSaga(Minted(w, relation, JobLink(j)), g, 1), id, j,
                 Advancing(Listing(ReserveLow, "", 0, Read), g, 1, 0, Establish(true)))
  {
    t := Enters(w, id, j, relation);
    t := Mints(w, t, id, j, relation);
    t := Go(t, id, NONE);
  }

  lemma Mints(w: World, at: World, id: nat, j: Job, relation: RelationId) returns (t: World)
    requires Reachable(at) && Unused(w, id, j, relation) && at == Moved(w, id, j, EntryMint)
    ensures Reachable(t) && t == Moved(Minted(w, relation, JobLink(j)), id, j, EntryInsert(NewSaga(j, relation)))
  {
    t := Go(at, id, Pick(relation, true));
  }

  /** The driver is at the start of a list edit. */
  predicate AtEdit(w: World, id: nat, j: Job, e: Edit, name: string, g: Saga, v: nat, n: nat) {
    id in w.drivers && w.drivers[id] == Driver(j, Advancing(Listing(e, name, 0, Read), g, v, n, Establish(true)))
  }

  function WithList(w: World, p: PlayerId, l: FriendList, v: nat): World {
    w.(store := w.store.(lists := w.store.lists[p := Row(l, v)]))
  }

  /** A list edit that writes, on a list that is there. */
  lemma Edits(w: World, id: nat, j: Job, e: Edit, name: string, g: Saga, v: nat, n: nat, after: FriendList) returns (t: World)
    requires Reachable(w) && AtEdit(w, id, j, e, name, g, v, n) && Subject(g, e) in w.store.lists
    requires PlanFor(g, e, name, w.store.lists[Subject(g, e)].value) == Write(after)
    ensures Reachable(t)
    ensures t == Moved(WithList(w, Subject(g, e), after, w.store.lists[Subject(g, e)].version + 1), id, j,
                       SettleEdit(g, v, n, Establish(true), e, true))
  {
    hide PlanFor, SettleEdit;
    var row := w.store.lists[Subject(g, e)];
    t := Go(w, id, NONE);
    assert t == Moved(w, id, j, Advancing(Listing(e, name, 0, Replace(row.value, row.version)), g, v, n, Establish(true)));
    t := Go(t, id, NONE);
  }

  /** A list edit that writes nothing. */
  lemma Settles(w: World, id: nat, j: Job, e: Edit, name: string, g: Saga, v: nat, n: nat, ok: bool) returns (t: World)
    requires Reachable(w) && AtEdit(w, id, j, e, name, g, v, n) && Subject(g, e) in w.store.lists
    requires PlanFor(g, e, name, w.store.lists[Subject(g, e)].value) == Settled(ok)
    ensures Reachable(t) && t == Moved(w, id, j, SettleEdit(g, v, n, Establish(true), e, ok))
  {
    hide PlanFor, SettleEdit;
    t := Go(w, id, NONE);
  }

  /** A list edit that creates the list first. */
  lemma Creates(w: World, id: nat, j: Job, e: Edit, name: string, g: Saga, v: nat, n: nat, after: FriendList) returns (t: World)
    requires Reachable(w) && AtEdit(w, id, j, e, name, g, v, n) && Subject(g, e) !in w.store.lists && !IsRelease(e)
    requires PlanFor(g, e, name, EMPTY_LIST) == Write(after)
    ensures Reachable(t)
    ensures t == Moved(WithList(w, Subject(g, e), after, 2), id, j, SettleEdit(g, v, n, Establish(true), e, true))
  {
    hide PlanFor, SettleEdit;
    t := Go(w, id, NONE);
    t := CreatesEmpty(w, t, id, j, e, name, g, v, n, after);
    t := Go(t, id, NONE);
    assert t.store.lists == w.store.lists[Subject(g, e) := Row(after, 2)];
  }

  lemma CreatesEmpty(
    w: World, at: World, id: nat, j: Job, e: Edit, name: string, g: Saga, v: nat, n: nat, after: FriendList)
    returns (t: World)
    requires Reachable(at) && Subject(g, e) !in w.store.lists && !IsRelease(e)
    requires PlanFor(g, e, name, EMPTY_LIST) == Write(after)
    requires at == Moved(w, id, j, Advancing(Listing(e, name, 0, Create), g, v, n, Establish(true)))
    ensures Reachable(t)
    ensures t == Moved(WithList(w, Subject(g, e), EMPTY_LIST, 1), id, j,
                       Advancing(Listing(e, name, 0, Replace(EMPTY_LIST, 1)), g, v, n, Establish(true)))
  {
    hide PlanFor, SettleEdit;
    t := Go(at, id, NONE);
  }

  /** The driver is about to persist a status. */
  predicate AtWrite(w: World, id: nat, j: Job, g: Saga, v: nat, n: nat, next: Saga) {
    id in w.drivers && w.drivers[id] == Driver(j, WriteSaga(g, v, n, Establish(true), next, NextStep))
    && next.link in w.store.sagas && w.store.sagas[next.link].version == v
  }

  lemma Persists(w: World, id: nat, j: Job, g: Saga, v: nat, n: nat, next: Saga) returns (t: World)
    requires Reachable(w) && AtWrite(w, id, j, g, v, n, next)
    ensures Reachable(t)
    ensures t == Moved(WithSaga(w, next, v + 1), id, j, Enter(j, next, v + 1, n + 1, Establish(true)))
  {
    hide Enter;
    t := Go(w, id, NONE);
  }

  /** The account name is read and the edit begins. */
  lemma Names(w: World, id: nat, j: Job, e: Edit, g: Saga, v: nat, n: nat) returns (t: World)
    requires Reachable(w) && id in w.drivers && Other(g, e) in w.store.names && w.store.names[Other(g, e)] == NameOf(Other(g, e))
    requires w.drivers[id] == Driver(j, Advancing(NameRead(e), g, v, n, Establish(true)))
    ensures Reachable(t) && t == Moved(w, id, j, Advancing(Listing(e, NameOf(Other(g, e)), 0, Read), g, v, n, Establish(true)))
  {
    t := Go(w, id, NONE);
  }

  // ------------------------------------------------------------- two codes of one pair

  function Slots(rs: seq<Reservation>): FriendList { FriendList([], rs, 0, |rs|) }

  function Friends(friend: PlayerId, relation: RelationId, rs: seq<Reservation>): FriendList {
    FriendList([Entry(friend, NameOf(friend), relation)], rs, 1, |rs|)
  }

  lemma FirstSlot(k: Link, friend: PlayerId)
    ensures PlanReserve(EMPTY_LIST, k, friend) == Write(Slots([Reservation(k, friend)]))
  {
  }

  lemma SecondSlot(a: Link, b: Link, friend: PlayerId)
    requires a != b
    ensures PlanReserve(Slots([Reservation(a, friend)]), b, friend) == Write(Slots([Reservation(a, friend), Reservation(b, friend)]))
  {
  }

  lemma TakesSlot(a: Link, b: Link, friend: PlayerId, relation: RelationId)
    requires a != b
    ensures PlanConsume(Slots([Reservation(a, friend), Reservation(b, friend)]), a, friend, NameOf(friend), relation)
      == Write(Friends(friend, relation, [Reservation(b, friend)]))
  {
    var rs := [Reservation(a, friend), Reservation(b, friend)];
    assert rs[..1] == [Reservation(a, friend)] && rs[..1][..0] == [];
    assert Without(rs[..1], a) == [];
    assert Without(rs, a) == [Reservation(b, friend)];
    assert rs[0].link == a;
  }

  lemma TakenAlready(friend: PlayerId, relation: RelationId, k: Link, rs: seq<Reservation>)
    ensures PlanConsume(Friends(friend, relation, rs), k, friend, NameOf(friend), relation) == Settled(true)
  {
    assert Friends(friend, relation, rs).entries[0].relation == relation;
  }

  const A0 := NewSaga(JOB_A, 10)
  const B0 := NewSaga(JOB_B, 20)

  function At(g: Saga, st: Status): Saga { g.(status := st) }

  /** What the two drivers and their tables look like. */
  predicate Scene(w: World, a: Row<Saga>, b: Row<Saga>, l1: FriendList, l2: FriendList, da: Run, db: Run) {
    && w.store.owners == OWNERS && w.store.names == NAMES && A in w.store.sagas && w.store.sagas[A] == a && B in w.store.sagas && w.store.sagas[B] == b
    && 1 in w.store.lists && w.store.lists[1].value == l1 && 2 in w.store.lists && w.store.lists[2].value == l2
    && 0 in w.drivers && w.drivers[0] == Driver(JOB_A, da) && 1 in w.drivers && w.drivers[1] == Driver(JOB_B, db)
  }

  /** Both sagas are inserted. */
  lemma BothBegin() returns (w: World)
    ensures Reachable(w) && w.store.lists == map[] && w.store.relations == map[] && w.store.owners == OWNERS && w.store.names == NAMES
    ensures w.store.sagas == map[A := Row(A0, 1), B := Row(B0, 1)] && w.drivers.Keys == {0, 1}
    ensures AtEdit(w, 0, JOB_A, ReserveLow, "", A0, 1, 0) && AtEdit(w, 1, JOB_B, ReserveLow, "", B0, 1, 0)
  {
    Codes();
    w := Empty(OWNERS);
    assert w == RunAll(Empty(OWNERS), []);
    w := Next(w, Activate(1, "ann"));
    w := Next(w, Activate(2, "bob"));
    assert w.store.names == NAMES;
    w := Begin(w, 0, JOB_A, 10);
    w := Begin(w, 1, JOB_B, 20);
  }

  /** The first link reserves at the first player. */
  lemma FirstReservesLow() returns (w: World)
    ensures Reachable(w) && w.store.lists == map[1 := Row(Slots([Reservation(A, 2)]), 2)]
    ensures w.store.relations == map[] && w.store.owners == OWNERS && w.store.names == NAMES && w.drivers.Keys == {0, 1}
    ensures w.store.sagas == map[A := Row(At(A0, LowReserved), 2), B := Row(B0, 1)]
    ensures AtEdit(w, 0, JOB_A, ReserveHigh, "", At(A0, LowReserved), 2, 1) && AtEdit(w, 1, JOB_B, ReserveLow, "", B0, 1, 0)
  {
    Codes();
    w := BothBegin();
    FirstSlot(A, 2);
    hide PlanReserve, Slots;
    w := Creates(w, 0, JOB_A, ReserveLow, "", A0, 1, 0, Slots([Reservation(A, 2)]));
    w := Persists(w, 0, JOB_A, A0, 1, 0, At(A0, LowReserved));
  }

  /** And at the second. */
  lemma FirstReserves() returns (w: World)
    ensures Reachable(w) && w.store.relations == map[]
    ensures Scene(w, Row(At(A0, BothReserved), 3), Row(B0, 1), Slots([Reservation(A, 2)]), Slots([Reservation(A, 1)]),
                  Advancing(RelationCreate, At(A0, BothReserved), 3, 2, Establish(true)),
                  Advancing(Listing(ReserveLow, "", 0, Read), B0, 1, 0, Establish(true)))
  {
    Codes();
    w := FirstReservesLow();
    FirstSlot(A, 1);
    hide PlanReserve, Slots;
    w := Creates(w, 0, JOB_A, ReserveHigh, "", At(A0, LowReserved), 2, 1, Slots([Reservation(A, 1)]));
    w := Persists(w, 0, JOB_A, At(A0, LowReserved), 2, 1, At(A0, BothReserved));
  }

  /** So does the second, at the first player. */
  lemma SecondReservesLow() returns (w: World)
    ensures Reachable(w) && w.store.relations == map[]
    ensures Scene(w, Row(At(A0, BothReserved), 3), Row(At(B0, LowReserved), 2),
                  Slots([Reservation(A, 2), Reservation(B, 2)]), Slots([Reservation(A, 1)]),
                  Advancing(RelationCreate, At(A0, BothReserved), 3, 2, Establish(true)),
                  Advancing(Listing(ReserveHigh, "", 0, Read), At(B0, LowReserved), 2, 1, Establish(true)))
  {
    Codes();
    w := FirstReserves();
    SecondSlot(A, B, 2);
    hide PlanReserve, Slots;
    w := Edits(w, 1, JOB_B, ReserveLow, "", B0, 1, 0, Slots([Reservation(A, 2), Reservation(B, 2)]));
    w := Persists(w, 1, JOB_B, B0, 1, 0, At(B0, LowReserved));
  }

  /** And at the second. */
  lemma BothReserve() returns (w: World)
    ensures Reachable(w) && w.store.relations == map[]
    ensures Scene(w, Row(At(A0, BothReserved), 3), Row(At(B0, BothReserved), 3),
                  Slots([Reservation(A, 2), Reservation(B, 2)]), Slots([Reservation(A, 1), Reservation(B, 1)]),
                  Advancing(RelationCreate, At(A0, BothReserved), 3, 2, Establish(true)),
                  Advancing(RelationCreate, At(B0, BothReserved), 3, 2, Establish(true)))
  {
    Codes();
    w := SecondReservesLow();
    SecondSlot(A, B, 1);
    hide PlanReserve, Slots;
    w := Edits(w, 1, JOB_B, ReserveHigh, "", At(B0, LowReserved), 2, 1, Slots([Reservation(A, 1), Reservation(B, 1)]));
    w := Persists(w, 1, JOB_B, At(B0, LowReserved), 2, 1, At(B0, BothReserved));
  }

  /** The first link makes the relation. */
  lemma FirstRelates() returns (w: World)
    ensures Reachable(w) && (1, 2) in w.store.relations && w.store.relations[(1, 2)] == 10
    ensures Scene(w, Row(At(A0, RelationActive), 4), Row(At(B0, BothReserved), 3),
                  Slots([Reservation(A, 2), Reservation(B, 2)]), Slots([Reservation(A, 1), Reservation(B, 1)]),
                  Advancing(NameRead(ConsumeLow), At(A0, RelationActive), 4, 3, Establish(true)),
                  Advancing(RelationCreate, At(B0, BothReserved), 3, 2, Establish(true)))
  {
    Codes();
    w := BothReserve();
    hide Slots;
    w := Go(w, 0, NONE);
    w := Persists(w, 0, JOB_A, At(A0, BothReserved), 3, 2, At(A0, RelationActive));
  }

  /** And writes both entries. */
  lemma FirstProjects() returns (w: World)
    ensures Reachable(w) && w.store.names == NAMES && (1, 2) in w.store.relations && w.store.relations[(1, 2)] == 10
    ensures 1 in w.drivers && w.drivers[1] == Driver(JOB_B, Advancing(RelationCreate, At(B0, BothReserved), 3, 2, Establish(true)))
    ensures B in w.store.sagas && w.store.sagas[B] == Row(At(B0, BothReserved), 3)
    ensures 1 in w.store.lists && w.store.lists[1].value == Friends(2, 10, [Reservation(B, 2)])
    ensures 2 in w.store.lists && w.store.lists[2].value == Friends(1, 10, [Reservation(B, 1)])
  {
    Codes();
    w := FirstRelates();
    TakesSlot(A, B, 2, 10);
    TakesSlot(A, B, 1, 10);
    hide PlanConsume, Friends, Slots;
    var g := At(A0, RelationActive);
    w := Names(w, 0, JOB_A, ConsumeLow, g, 4, 3);
    w := Edits(w, 0, JOB_A, ConsumeLow, NameOf(2), g, 4, 3, Friends(2, 10, [Reservation(B, 2)]));
    w := Names(w, 0, JOB_A, ConsumeHigh, g, 4, 3);
    w := Edits(w, 0, JOB_A, ConsumeHigh, NameOf(1), g, 4, 3, Friends(1, 10, [Reservation(B, 1)]));
  }

  const B1 := B0.(relation := 10)

  /** The second link adopts the relation and finds both entries there. */
  lemma SecondProjects() returns (w: World)
    ensures Reachable(w) && 1 in w.drivers
    ensures w.drivers[1] == Driver(JOB_B, WriteSaga(At(B1, RelationActive), 4, 3, Establish(true), At(B1, ProjectionsApplied), NextStep))
    ensures B in w.store.sagas && w.store.sagas[B] == Row(At(B1, RelationActive), 4)
    ensures 1 in w.store.lists && w.store.lists[1].value == Friends(2, 10, [Reservation(B, 2)])
    ensures 2 in w.store.lists && w.store.lists[2].value == Friends(1, 10, [Reservation(B, 1)])
  {
    w := FirstProjects();
    TakenAlready(2, 10, B, [Reservation(B, 2)]);
    TakenAlready(1, 10, B, [Reservation(B, 1)]);
    hide PlanConsume, Friends;
    var g := At(B1, RelationActive);
    w := Go(w, 1, NONE);
    assert w.drivers[1].run == Advancing(RelationRead, At(B0, BothReserved), 3, 2, Establish(true));
    w := Go(w, 1, NONE);
    w := Persists(w, 1, JOB_B, At(B0, BothReserved), 3, 2, g);
    w := Names(w, 1, JOB_B, ConsumeLow, g, 4, 3);
    w := Settles(w, 1, JOB_B, ConsumeLow, NameOf(2), g, 4, 3, true);
    w := Names(w, 1, JOB_B, ConsumeHigh, g, 4, 3);
    w := Settles(w, 1, JOB_B, ConsumeHigh, NameOf(1), g, 4, 3, true);
  }

  const B2 := At(B1, TaskCrediting)

  lemma SecondSetsCredits() returns (w: World)
    ensures Reachable(w) && 1 in w.drivers
    ensures w.drivers[1] == Driver(JOB_B, Advancing(Crediting(true), B2, 6, 5, Establish(true)))
    ensures B in w.store.sagas && w.store.sagas[B] == Row(B2, 6)
    ensures 1 in w.store.lists && w.store.lists[1].value == Friends(2, 10, [Reservation(B, 2)])
    ensures 2 in w.store.lists && w.store.lists[2].value == Friends(1, 10, [Reservation(B, 1)])
  {
    w := SecondProjects();
    hide Friends;
    w := Persists(w, 1, JOB_B, At(B1, RelationActive), 4, 3, At(B1, ProjectionsApplied));
    w := Persists(w, 1, JOB_B, At(B1, ProjectionsApplied), 5, 4, B2);
  }

  lemma SecondCredits() returns (w: World)
    ensures Reachable(w) && 1 in w.drivers
    ensures var g := Credited(B2, true);
      w.drivers[1] == Driver(JOB_B, Advancing(Crediting(false), g, 7, 5, Establish(true)))
      && B in w.store.sagas && w.store.sagas[B] == Row(g, 7)
    ensures 1 in w.store.lists && w.store.lists[1].value == Friends(2, 10, [Reservation(B, 2)])
    ensures 2 in w.store.lists && w.store.lists[2].value == Friends(1, 10, [Reservation(B, 1)])
  {
    w := SecondSetsCredits();
    hide Friends;
    w := Go(w, 1, NONE);
    w := Go(w, 1, NONE);
  }

  /** A saga completes and still holds a slot of both players: the other link of the pair
      wrote the entries, and its own consumes returned early. */
  lemma CompletedStillHolds() returns (w: World)
    ensures Reachable(w) && B in w.store.sagas && w.store.sagas[B].value.status == Completed
    ensures Holds(w, 1, B) && Holds(w, 2, B)
  {
    w := SecondCredits();
    var g := Credited(Credited(B2, true), false);
    w := Go(w, 1, NONE);
    assert w.drivers[1].run == WriteSaga(Credited(B2, true), 7, 5, Establish(true), g, NextCredit(false));
    w := Go(w, 1, NONE);
    assert w.drivers[1].run == WriteSaga(g, 8, 5, Establish(true), g.(status := Completed), NextStep);
    w := Go(w, 1, NONE);
    assert w.store.lists[1].value.reservations[0].link == B && w.store.lists[2].value.reservations[0].link == B;
  }

  // ------------------------------------------------------------- a full list

  /** `n` other redeemers of the second player's code have reserved there, and nothing
      else has happened. */
  ghost predicate Filled(w: World, n: nat) {
    && Reachable(w) && w.store.owners == OWNERS && w.store.relations == map[] && w.store.lists.Keys == {2}
    && w.store.lists[2].value.entries == [] && w.store.lists[2].value.activeCount == 0
    && w.store.lists[2].value.reservedCount == n
    && (forall r :: r in w.store.lists[2].value.reservations ==> Filler(r.link, n))
    && (forall k :: k in w.store.sagas ==> Filler(k, n))
    && (forall m :: m in w.store.minted ==> 1003 <= m < 1003 + n)
    && (forall i :: i in w.drivers ==> 1003 <= i < 1003 + n)
  }

  predicate Filler(k: Link, n: nat) { k.code == "2" && 3 <= k.redeemer < 3 + n }

  function FillerJob(n: nat): Job { Job(2, 3 + n, "2", false) }

  lemma RoomFor(l: FriendList, n: nat, k: Link, friend: PlayerId)
    requires l.entries == [] && l.activeCount == 0 && l.reservedCount == n
    requires forall r :: r in l.reservations ==> Filler(r.link, n)
    requires !Filler(k, n)
    ensures PlanReserve(l, k, friend) ==
      if n >= 100 then Settled(false)
      else Write(FriendList([], l.reservations + [Reservation(k, friend)], 0, n + 1))
    ensures PlanRelease(l, k) == Settled(true)
  {
    assert forall i :: 0 <= i < |l.reservations| ==> l.reservations[i] in l.reservations;
  }

  lemma FillFirst() returns (w: World)
    ensures Filled(w, 1)
  {
    Codes();
    w := Empty(OWNERS);
    assert w == RunAll(Empty(OWNERS), []);
    var j := FillerJob(0);
    w := Begin(w, 1003, j, 1003);
    FirstSlot(JobLink(j), 3);
    hide PlanReserve;
    w := Creates(w, 1003, j, ReserveLow, "", NewSaga(j, 1003), 1, 0, Slots([Reservation(JobLink(j), 3)]));
  }

  function FillerList(l: FriendList, n: nat): FriendList {
    FriendList([], l.reservations + [Reservation(JobLink(FillerJob(n)), 3 + n)], 0, n + 1)
  }

  lemma FilledMore(w: World, n: nat, t: World, run: Run)
    requires Filled(w, n) && Reachable(t)
    requires var g := NewSaga(FillerJob(n), 1003 + n);
      t == Moved(WithList(WithSaga(Minted(w, 1003 + n, g.link), g, 1), 2, FillerList(w.store.lists[2].value, n),
                          w.store.lists[2].version + 1), 1003 + n, FillerJob(n), run)
    ensures Filled(t, n + 1)
  {
    hide Reachable;
  }

  lemma FillerIsUnused(w: World, n: nat)
    requires Filled(w, n)
    ensures Unused(w, 1003 + n, FillerJob(n), 1003 + n)
  {
    Codes();
    hide Reachable;
  }

  lemma FillOne(w: World, n: nat) returns (t: World)
    requires Filled(w, n) && 1 <= n < 100
    ensures Filled(t, n + 1)
  {
    var j := FillerJob(n);
    var l := w.store.lists[2].value;
    var g := NewSaga(j, 1003 + n);
    FillerIsUnused(w, n);
    RoomFor(l, n, JobLink(j), 3 + n);
    hide PlanReserve, Unused, SettleEdit;
    t := Begin(w, 1003 + n, j, 1003 + n);
    t := Edits(t, 1003 + n, j, ReserveLow, "", g, 1, 0, FillerList(l, n));
    FilledMore(w, n, t, SettleEdit(g, 1, 0, Establish(true), ReserveLow, true));
  }

  lemma {:induction false} Fill(n: nat) returns (w: World)
    requires 1 <= n <= 100
    ensures Filled(w, n)
    decreases n
  {
    if n == 1 {
      w := FillFirst();
    } else {
      var v := Fill(n - 1);
      w := FillOne(v, n - 1);
    }
  }

  // ------------------------------------------------------------- refused at the second player

  /** The second player's list is full and holds nothing of link A. */
  predicate FullAtTwo(w: World) {
    && 2 in w.store.lists && w.store.lists[2].value.entries == [] && w.store.lists[2].value.activeCount == 0
    && w.store.lists[2].value.reservedCount == 100
    && (forall r :: r in w.store.lists[2].value.reservations ==> r.link != A)
  }

  lemma FullRefuses(l: FriendList)
    requires l.entries == [] && l.activeCount == 0 && l.reservedCount == 100
    requires forall r :: r in l.reservations ==> r.link != A
    ensures PlanReserve(l, A, 1) == Settled(false) && PlanRelease(l, A) == Settled(true)
  {
    assert forall i :: 0 <= i < |l.reservations| ==> l.reservations[i] in l.reservations;
  }

  lemma FreesSlot(k: Link, friend: PlayerId)
    ensures PlanRelease(Slots([Reservation(k, friend)]), k) == Write(Slots([]))
  {
    var rs := [Reservation(k, friend)];
    assert rs[..0] == [] && rs[0].link == k;
    assert Without(rs, k) == [];
  }

  const A1 := At(A0, LowReserved)

  /** Link A has a slot at the first player, is refused at the second and turns back. */
  lemma TurnsBack(w: World) returns (t: World)
    requires Reachable(w) && FullAtTwo(w) && AtEdit(w, 0, JOB_A, ReserveHigh, "", A1, 2, 1)
    requires A in w.store.sagas && w.store.sagas[A] == Row(A1, 2)
    ensures Reachable(t)
    ensures t == Moved(WithSaga(w, At(A0, Releasing), 3), 0, JOB_A,
                       Advancing(Listing(ReleaseLow, "", 0, Read), At(A0, Releasing), 3, 2, Establish(true)))
  {
    FullRefuses(w.store.lists[2].value);
    hide PlanReserve;
    t := Settles(w, 0, JOB_A, ReserveHigh, "", A1, 2, 1, false);
    t := Persists(t, 0, JOB_A, A1, 2, 1, At(A0, Releasing));
  }

  /** With the release at the first player over, the saga is aborted. */
  lemma Aborts(w: World) returns (t: World)
    requires Reachable(w) && FullAtTwo(w) && AtEdit(w, 0, JOB_A, ReleaseHigh, "", At(A0, Releasing), 3, 2)
    requires A in w.store.sagas && w.store.sagas[A] == Row(At(A0, Releasing), 3)
    ensures Reachable(t) && t == Moved(WithSaga(w, At(A0, Aborted), 4), 0, JOB_A, Finished(LimitReached))
  {
    FullRefuses(w.store.lists[2].value);
    hide PlanRelease;
    t := Settles(w, 0, JOB_A, ReleaseHigh, "", At(A0, Releasing), 3, 2, true);
    t := Persists(t, 0, JOB_A, At(A0, Releasing), 3, 2, At(A0, Aborted));
  }

  /** The first player's link begins while the second player's list is full. */
  lemma BeginsFull() returns (w: World)
    ensures Reachable(w) && FullAtTwo(w) && 1 !in w.store.lists && w.store.relations == map[] && w.store.owners == OWNERS
    ensures A in w.store.sagas && w.store.sagas[A] == Row(A0, 1) && AtEdit(w, 0, JOB_A, ReserveLow, "", A0, 1, 0)
    ensures 1 !in w.drivers
  {
    Codes();
    w := Fill(100);
    FilledIsFull(w);
    w := Begin(w, 0, JOB_A, 10);
  }

  lemma FilledIsFull(w: World)
    requires Filled(w, 100)
    ensures FullAtTwo(w) && Unused(w, 0, JOB_A, 10)
  {
    Codes();
    hide Reachable;
  }

  /** The release call at the first player fails; the error is dropped and the saga is
      aborted with the slot still held. */
  lemma AbortedAfterFailedRelease() returns (w: World)
    ensures Reachable(w) && A in w.store.sagas && w.store.sagas[A].value.status == Aborted && Holds(w, 1, A)
  {
    w := BeginsFull();
    FirstSlot(A, 2);
    hide PlanReserve, Slots;
    w := Creates(w, 0, JOB_A, ReserveLow, "", A0, 1, 0, Slots([Reservation(A, 2)]));
    w := Persists(w, 0, JOB_A, A0, 1, 0, A1);
    w := TurnsBack(w);
    w := Next(w, Act(0, Fault.Refuse, NONE));
    w := Aborts(w);
    SlotThere(w);
  }

  lemma SlotThere(w: World)
    requires 1 in w.store.lists && w.store.lists[1].value == Slots([Reservation(A, 2)])
    ensures Holds(w, 1, A)
  {
    assert w.store.lists[1].value.reservations[0].link == A;
  }

  /** A second caller of the same code loads the saga at INIT. */
  lemma LoadsInit(w: World) returns (t: World)
    requires Reachable(w) && w.store.owners == OWNERS && w.store.relations == map[] && 1 !in w.drivers
    requires A in w.store.sagas && w.store.sagas[A] == Row(A0, 1)
    ensures Reachable(t)
    ensures t == Moved(w, 1, JOB_A, Advancing(Listing(ReserveLow, "", 0, Read), A0, 1, 0, Establish(true)))
  {
    Codes();
    t := Next(w, Redeem(1, 2, "1", false));
    assert t == Moved(w, 1, JOB_A, EntryRelation);
    t := Go(t, 1, NONE);
    assert t == Moved(w, 1, JOB_A, EntrySaga);
    t := Go(t, 1, NONE);
  }

  /** The first has a slot at the first player and turns back. */
  lemma TurnsBackBeforeASecondCaller() returns (w: World)
    ensures Reachable(w) && FullAtTwo(w) && A in w.store.sagas && w.store.sagas[A] == Row(At(A0, Releasing), 3)
    ensures 1 in w.store.lists && w.store.lists[1].value == Slots([Reservation(A, 2)]) && AtEdit(w, 1, JOB_A, ReserveLow, "", A0, 1, 0)
    ensures AtEdit(w, 0, JOB_A, ReleaseLow, "", At(A0, Releasing), 3, 2)
  {
    w := BeginsFull();
    w := LoadsInit(w);
    FirstSlot(A, 2);
    hide PlanReserve, PlanRelease, Slots;
    w := Creates(w, 0, JOB_A, ReserveLow, "", A0, 1, 0, Slots([Reservation(A, 2)]));
    w := Persists(w, 0, JOB_A, A0, 1, 0, A1);
    w := TurnsBack(w);
  }

  /** The saga is aborted with both releases done while the second caller is still about
      to reserve. */
  lemma AbortedBehindASecondCaller() returns (w: World)
    ensures Reachable(w) && A in w.store.sagas && w.store.sagas[A].value.status == Aborted
    ensures 1 in w.store.lists && w.store.lists[1].value == Slots([]) && AtEdit(w, 1, JOB_A, ReserveLow, "", A0, 1, 0)
  {
    w := TurnsBackBeforeASecondCaller();
    FreesSlot(A, 2);
    hide PlanRelease, Slots;
    w := Edits(w, 0, JOB_A, ReleaseLow, "", At(A0, Releasing), 3, 2, Slots([]));
    w := Aborts(w);
  }

  /** It then reserves, and the slot is held although no release failed. */
  lemma AbortedAfterLateReserve() returns (w: World)
    ensures Reachable(w) && A in w.store.sagas && w.store.sagas[A].value.status == Aborted && Holds(w, 1, A)
  {
    w := AbortedBehindASecondCaller();
    FirstSlot(A, 2);
    assert Slots([]) == EMPTY_LIST;
    hide PlanReserve, Slots;
    w := Edits(w, 1, JOB_A, ReserveLow, "", A0, 1, 0, Slots([Reservation(A, 2)]));
    SlotThere(w);
  }

  // ------------------------------------------------------------- the wrong relation ID

  /** Link B takes the last slot at the second player. */
  lemma OtherLinkTakesTheLastSlot() returns (w: World)
    ensures Reachable(w) && FullAtTwo(w) && w.store.relations == map[] && w.store.owners == OWNERS
    ensures 1 in w.store.lists && w.store.lists[1].value == Slots([Reservation(B, 2)])
    ensures w.drivers.Keys !! {0, 2} && 1 in w.drivers && A !in w.store.sagas && 10 !in w.store.minted
    ensures w.drivers[1] == Driver(JOB_B, WriteSaga(At(B0, LowReserved), 2, 1, Establish(true), At(B0, BothReserved), NextStep))
    ensures B in w.store.sagas && w.store.sagas[B] == Row(At(B0, LowReserved), 2)
  {
    w := Fill(99);
    LastSlotIsFree(w);
    var l := w.store.lists[2].value;
    FirstSlot(B, 2);
    hide PlanReserve, Slots, Reachable;
    w := OtherLinkHasLow(w);
    var after := FriendList([], l.reservations + [Reservation(B, 1)], 0, 100);
    w := Edits(w, 1, JOB_B, ReserveHigh, "", At(B0, LowReserved), 2, 1, after);
    LastSlotTaken(l, after);
  }

  lemma LastSlotIsFree(w: World)
    requires Filled(w, 99)
    ensures Unused(w, 1, JOB_B, 20) && 2 in w.store.lists && 1 !in w.store.lists
    ensures w.drivers.Keys !! {0, 2} && A !in w.store.sagas && 10 !in w.store.minted && w.store.owners == OWNERS
    ensures w.store.relations == map[] && Reachable(w) && (forall r :: r in w.store.lists[2].value.reservations ==> r.link != A)
    ensures PlanReserve(w.store.lists[2].value, B, 1)
      == Write(FriendList([], w.store.lists[2].value.reservations + [Reservation(B, 1)], 0, 100))
  {
    Codes();
    hide Reachable;
    assert !Filler(B, 99) && !Filler(A, 99);
    RoomFor(w.store.lists[2].value, 99, B, 1);
    hide PlanReserve;
  }

  lemma LastSlotTaken(l: FriendList, after: FriendList)
    requires after == FriendList([], l.reservations + [Reservation(B, 1)], 0, 100)
    requires forall r :: r in l.reservations ==> r.link != A
    ensures forall r :: r in after.reservations ==> r.link != A
  {
    Codes();
  }

  /** Link A begins, has a slot at the first player and is refused for want of that one. */
  lemma OtherLinkWaits() returns (w: World)
    ensures Reachable(w) && FullAtTwo(w) && w.store.relations == map[] && w.store.owners == OWNERS && w.drivers.Keys !! {2}
    ensures A in w.store.sagas && w.store.sagas[A] == Row(A1, 2) && AtEdit(w, 0, JOB_A, ReserveHigh, "", A1, 2, 1)
    ensures AtWrite(w, 1, JOB_B, At(B0, LowReserved), 2, 1, At(B0, BothReserved))
  {
    Codes();
    w := OtherLinkTakesTheLastSlot();
    SecondSlot(B, A, 2);
    hide PlanReserve, PlanRelease, Slots, Reachable;
    w := Begin(w, 0, JOB_A, 10);
    w := Edits(w, 0, JOB_A, ReserveLow, "", A0, 1, 0, Slots([Reservation(B, 2), Reservation(A, 2)]));
    w := Persists(w, 0, JOB_A, A0, 1, 0, A1);
  }

  lemma OtherLinkHasLow(w: World) returns (t: World)
    requires Reachable(w) && Unused(w, 1, JOB_B, 20) && 1 !in w.store.lists
    ensures Reachable(t)
    ensures t.drivers.Keys == w.drivers.Keys + {1} && AtEdit(t, 1, JOB_B, ReserveHigh, "", At(B0, LowReserved), 2, 1)
    ensures t.store.lists == w.store.lists[1 := Row(Slots([Reservation(B, 2)]), 2)]
    ensures t.store.sagas == w.store.sagas[B := Row(At(B0, LowReserved), 2)]
    ensures t.store.minted == w.store.minted[20 := B] && t.store.relations == w.store.relations
    ensures t.store.owners == w.store.owners
  {
    FirstSlot(B, 2);
    hide PlanReserve, Slots, Reachable;
    t := Begin(w, 1, JOB_B, 20);
    t := Creates(t, 1, JOB_B, ReserveLow, "", B0, 1, 0, Slots([Reservation(B, 2)]));
    t := Persists(t, 1, JOB_B, B0, 1, 0, At(B0, LowReserved));
    assert t.store.sagas == w.store.sagas[B := Row(At(B0, LowReserved), 2)];
  }

  /** It is aborted; link B then makes the pair's relation. */
  lemma RefusedThenRelated() returns (w: World)
    ensures Reachable(w) && w.store.owners == OWNERS && 2 !in w.drivers
    ensures A in w.store.sagas && w.store.sagas[A].value == At(A0, Aborted)
    ensures (1, 2) in w.store.relations && w.store.relations[(1, 2)] == 20
  {
    Codes();
    w := OtherLinkWaits();
    w := TurnsBack(w);
    w := Next(w, Act(0, Fault.Refuse, NONE));
    w := Aborts(w);
    w := Persists(w, 1, JOB_B, At(B0, LowReserved), 2, 1, At(B0, BothReserved));
    w := Go(w, 1, NONE);
  }

  /** The call that answers wrongly: the redeemer of code 1 asks again, reads that the
      pair is related under 20, and is answered with 10, which no relation has. */
  lemma AbortedCodeAnswersItsOwnId() returns (w: World)
    ensures Reachable(w) && 2 in w.drivers && w.drivers[2] == Driver(JOB_A, Finished(Linked(10, false)))
    ensures Related(w.store, 1, 2, 20)
  {
    Codes();
    w := RefusedThenRelated();
    w := Next(w, Redeem(2, 2, "1", false));
    assert w.drivers[2] == Driver(JOB_A, EntryRelation);
    w := Go(w, 2, NONE);
    assert w.drivers[2] == Driver(JOB_A, EntryActiveSaga(20));
    w := Go(w, 2, NONE);
  }
}
